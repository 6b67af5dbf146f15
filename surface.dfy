/**
 * Choice of the surface configuration from the capabilities the adapter
 * advertises for the window surface, and the configuration built from it.
 */
module Surface {
  import opened Ints
  import opened Options

  /** A texture format; only whether it is sRGB-encoded matters to the selection. */
  datatype TextureFormat = TextureFormat(code: nat, isSrgb: bool)

  /** `wgpu::PresentMode`. */
  datatype PresentMode = AutoVsync | AutoNoVsync | Fifo | FifoRelaxed | Immediate | Mailbox

  /** `wgpu::CompositeAlphaMode`. */
  datatype CompositeAlphaMode = Auto | Opaque | PreMultiplied | PostMultiplied | Inherit

  /** `wgpu::SurfaceCapabilities`: each list in the adapter's order. */
  datatype SurfaceCapabilities = SurfaceCapabilities(
    formats: seq<TextureFormat>,
    presentModes: seq<PresentMode>,
    alphaModes: seq<CompositeAlphaMode>)

  /** `wgpu::TextureUsages`; the program only ever asks for a render attachment. */
  datatype TextureUsage = RenderAttachment

  /** `winit::dpi::PhysicalSize<u32>`. */
  datatype PhysicalSize = PhysicalSize(width: u32, height: u32)

  /** `wgpu::SurfaceConfiguration`. */
  datatype SurfaceConfiguration = SurfaceConfiguration(
    usage: TextureUsage,
    format: TextureFormat,
    width: u32,
    height: u32,
    presentMode: PresentMode,
    alphaMode: CompositeAlphaMode,
    viewFormats: seq<TextureFormat>,
    desiredMaximumFrameLatency: u32)

  /** `formats.iter().copied().find(|f| f.is_srgb())`: the first sRGB format, if any. */
  function FindSrgb(formats: seq<TextureFormat>): (r: Option<TextureFormat>)
    ensures r.None? <==> forall j :: 0 <= j < |formats| ==> !formats[j].isSrgb
    ensures r.Some? ==> exists k :: 0 <= k < |formats| && IsFirstSrgbAt(formats, k) && formats[k] == r.value
  {
    if |formats| == 0 then None
    else if formats[0].isSrgb then
      assert IsFirstSrgbAt(formats, 0);
      Some(formats[0])
    else
      var rest := FindSrgb(formats[1..]);
      if rest.Some? then
        var k' :| 0 <= k' < |formats[1..]| && IsFirstSrgbAt(formats[1..], k') && formats[1..][k'] == rest.value;
        assert IsFirstSrgbAt(formats, k' + 1);
        rest
      else
        rest
  }

  /** Position `k` holds an sRGB format and no earlier position does. */
  predicate IsFirstSrgbAt(formats: seq<TextureFormat>, k: nat)
  {
    k < |formats| && formats[k].isSrgb && forall j :: 0 <= j < k ==> !formats[j].isSrgb
  }

  /** `find(...).unwrap_or(formats[0])`; indexing `formats[0]` panics on an empty list. */
  function SelectFormat(formats: seq<TextureFormat>): (r: TextureFormat)
    requires |formats| > 0
    ensures r in formats
    ensures (exists j :: 0 <= j < |formats| && formats[j].isSrgb) ==>
              exists k: nat :: IsFirstSrgbAt(formats, k) && formats[k] == r
    ensures (forall j :: 0 <= j < |formats| ==> !formats[j].isSrgb) ==> r == formats[0]
  {
    match FindSrgb(formats)
    case Some(f) => f
    case None => formats[0]
  }

  /** Mailbox when the surface advertises it, otherwise Fifo. */
  function SelectPresentMode(modes: seq<PresentMode>): (r: PresentMode)
    ensures r == Mailbox <==> Mailbox in modes
    ensures r != Mailbox ==> r == Fifo
  {
    if Mailbox in modes then Mailbox else Fifo
  }

  /** The configuration built in `State::new` from the capabilities and the window's inner size. */
  function InitialConfig(caps: SurfaceCapabilities, size: PhysicalSize): (c: SurfaceConfiguration)
    requires |caps.formats| > 0 && |caps.alphaModes| > 0
    ensures c.width >= 1 && c.height >= 1
    ensures c.width == size.width || (size.width == 0 && c.width == 1)
    ensures c.height == size.height || (size.height == 0 && c.height == 1)
    ensures c.format in caps.formats && c.alphaMode == caps.alphaModes[0]
    ensures (exists j :: 0 <= j < |caps.formats| && caps.formats[j].isSrgb) ==>
              exists k: nat :: IsFirstSrgbAt(caps.formats, k) && caps.formats[k] == c.format
    ensures (forall j :: 0 <= j < |caps.formats| ==> !caps.formats[j].isSrgb) ==> c.format == caps.formats[0]
    ensures c.presentMode == Mailbox <==> Mailbox in caps.presentModes
    ensures c.presentMode != Mailbox ==> c.presentMode == Fifo
    ensures c.usage == RenderAttachment && c.viewFormats == [] && c.desiredMaximumFrameLatency == 2
  {
    SurfaceConfiguration(
      usage := RenderAttachment,
      format := SelectFormat(caps.formats),
      width := Max1(size.width),
      height := Max1(size.height),
      presentMode := SelectPresentMode(caps.presentModes),
      alphaMode := caps.alphaModes[0],
      viewFormats := [],
      desiredMaximumFrameLatency := 2)
  }

  /** The configuration after `resize(w, h)`: only the two dimensions change. */
  function ResizedConfig(c: SurfaceConfiguration, w: u32, h: u32): (r: SurfaceConfiguration)
    ensures r.width >= 1 && r.height >= 1
    ensures r.width == w || (w == 0 && r.width == 1)
    ensures r.height == h || (h == 0 && r.height == 1)
    ensures r == c.(width := r.width, height := r.height)
  {
    c.(width := Max1(w), height := Max1(h))
  }

  /** The configuration uses only what the capabilities advertise. */
  predicate Advertised(c: SurfaceConfiguration, caps: SurfaceCapabilities)
  {
    c.format in caps.formats && c.presentMode in caps.presentModes && c.alphaMode in caps.alphaModes
  }

  /**
   * Every conforming surface advertises Fifo; given that, the initial
   * configuration never leaves the advertised capability set.
   */
  lemma InitialConfigAdvertised(caps: SurfaceCapabilities, size: PhysicalSize)
    requires |caps.formats| > 0 && |caps.alphaModes| > 0 && Fifo in caps.presentModes
    ensures Advertised(InitialConfig(caps, size), caps)
  {
  }

  /** Resizing keeps a configuration within the advertised set. */
  lemma ResizedAdvertised(c: SurfaceConfiguration, caps: SurfaceCapabilities, w: u32, h: u32)
    requires Advertised(c, caps)
    ensures Advertised(ResizedConfig(c, w, h), caps)
  {
  }

  /** `resize(0, 0)` gives a 1 x 1 surface; `resize(800, 600)` gives 800 x 600. */
  lemma ResizeExamples(c: SurfaceConfiguration)
    ensures ResizedConfig(c, 0, 0).width == 1 && ResizedConfig(c, 0, 0).height == 1
    ensures ResizedConfig(c, 800, 600).width == 800 && ResizedConfig(c, 800, 600).height == 600
  {
  }

  /**
   * Format examples: with an sRGB format listed after a non-sRGB one, the sRGB
   * one is chosen; with none, the first listed format is.
   */
  lemma FormatExamples()
    ensures SelectFormat([TextureFormat(1, false), TextureFormat(2, true), TextureFormat(3, true)])
         == TextureFormat(2, true)
    ensures SelectFormat([TextureFormat(1, false), TextureFormat(3, false)]) == TextureFormat(1, false)
  {
    var fs := [TextureFormat(1, false), TextureFormat(2, true), TextureFormat(3, true)];
    assert fs[1..][0].isSrgb;
  }

  /** Present-mode examples: {Mailbox, Fifo} gives Mailbox, {Fifo} gives Fifo. */
  lemma PresentModeExamples()
    ensures SelectPresentMode([Mailbox, Fifo]) == Mailbox
    ensures SelectPresentMode([Fifo]) == Fifo
  {
  }
}
