/**
 * `SynThaiger.generate`: one sample is up to three text fragments, each drawn
 * from the corpus with its own foreground colour and one shared font, laid out
 * as a group over a background rectangle of the group's size and position,
 * flattened, passed through the post-processing chain, and labelled with the
 * fragments joined by single spaces.
 *
 * Every random draw is a parameter (`Draws`). Fonts (`F`) and colours (`C`) are
 * opaque; the layout engine is the parameter `arrange`, which reports the frame
 * the flow layout leaves on the group. Rendering, compositing and the image
 * effects are kept as symbolic terms (`Image`), so that what is proved is which
 * layers go in and which effects are applied, in which order.
 */
module Sample {
  import opened Text

  datatype Size = Size(width: int, height: int)

  datatype Point = Point(x: int, y: int)

  /** The bounding size and top-left corner a layout leaves on a group. */
  datatype Frame = Frame(size: Size, topleft: Point)

  /** One text fragment, rendered in its own colour with the sample's font. */
  datatype TextLayer<F, C> = TextLayer(text: string, color: C, font: F)

  /** The laid-out text group: its layers in draw order and its frame. */
  datatype Group<F, C> = Group(layers: seq<TextLayer<F, C>>, frame: Frame)

  /** The background rectangle; `textured` records whether the texture switch fired. */
  datatype RectLayer<C> = RectLayer(size: Size, color: C, topleft: Point, textured: bool)

  datatype Effect = AdditiveGaussianNoise | GaussianBlur | Resample | MedianBlur

  /** A raster: the text group flattened over the background, or an effect applied to a raster. */
  datatype Image<F, C> =
    | Flatten(group: Group<F, C>, background: RectLayer<C>)
    | Apply(effect: Effect, source: Image<F, C>)

  /** What `generate` returns: the image, the label (`labelText`, since `label` is a Dafny keyword) and the font. */
  datatype Sample<F, C> = Sample(image: Image<F, C>, labelText: string, font: F)

  /**
   * The values `generate` draws, in draw order: the number of fragments, the texts,
   * the font, the foreground colours, the background colour, the texture switch
   * and one switch per post-processing effect.
   */
  datatype Draws<F, C> = Draws(
    count: int,
    texts: seq<string>,
    font: F,
    colors: seq<C>,
    bgColor: C,
    textured: bool,
    gates: seq<bool>)

  /** The post-processing chain: each effect behind its own switch, in this order. */
  const Postprocess: seq<Effect> := [AdditiveGaussianNoise, GaussianBlur, Resample, MedianBlur]

  /**
   * What the draws of one `generate` call satisfy: the count comes from
   * `randint(0, 4)`, one text and one colour are drawn per fragment, and each
   * effect switch makes one decision.
   */
  predicate ValidDraws<F, C>(d: Draws<F, C>) {
    && 0 <= d.count < 4
    && |d.texts| == d.count
    && |d.colors| == d.count
    && |d.gates| == |Postprocess|
  }

  /** Python's `zip`: pairs in order, as many as the shorter sequence has. */
  function Zip<A, B>(xs: seq<A>, ys: seq<B>): (r: seq<(A, B)>)
    ensures |r| == if |xs| <= |ys| then |xs| else |ys|
    ensures forall i :: 0 <= i < |r| ==> r[i] == (xs[i], ys[i])
  {
    if xs == [] || ys == [] then [] else [(xs[0], ys[0])] + Zip(xs[1..], ys[1..])
  }

  /** One text layer per zipped (text, colour) pair, all with the same font. */
  function TextLayers<F, C>(texts: seq<string>, colors: seq<C>, font: F): seq<TextLayer<F, C>> {
    var pairs := Zip(texts, colors);
    seq(|pairs|, i requires 0 <= i < |pairs| => TextLayer(pairs[i].0, pairs[i].1, font))
  }

  /** Applies each effect of `chain` whose switch is on, first to last. */
  function ApplyChain<F, C>(img: Image<F, C>, chain: seq<Effect>, gates: seq<bool>): Image<F, C>
    requires |gates| == |chain|
    decreases |chain|
  {
    if chain == [] then img
    else ApplyChain(if gates[0] then Apply(chain[0], img) else img, chain[1..], gates[1..])
  }

  /** The effects applied to a raster, earliest first. */
  function Trace<F, C>(img: Image<F, C>): seq<Effect> {
    match img
    case Flatten(_, _) => []
    case Apply(e, src) => Trace(src) + [e]
  }

  /** The flattened composite underneath all effects. */
  function Base<F, C>(img: Image<F, C>): (b: Image<F, C>)
    ensures b.Flatten?
  {
    match img
    case Flatten(_, _) => img
    case Apply(_, src) => Base(src)
  }

  /** The effects of `chain` whose switch is on, in chain order. */
  function Enabled(chain: seq<Effect>, gates: seq<bool>): seq<Effect>
    requires |gates| == |chain|
  {
    if chain == [] then []
    else (if gates[0] then [chain[0]] else []) + Enabled(chain[1..], gates[1..])
  }

  /** The chain adds exactly its enabled effects, in order, and keeps the composite underneath. */
  lemma {:induction false} ApplyChainTrace<F, C>(img: Image<F, C>, chain: seq<Effect>, gates: seq<bool>)
    requires |gates| == |chain|
    ensures Trace(ApplyChain(img, chain, gates)) == Trace(img) + Enabled(chain, gates)
    ensures Base(ApplyChain(img, chain, gates)) == Base(img)
    decreases |chain|
  {
    if chain != [] {
      var next := if gates[0] then Apply(chain[0], img) else img;
      ApplyChainTrace(next, chain[1..], gates[1..]);
    }
  }

  /** With every switch off the chain leaves the raster as it is. */
  lemma {:induction false} ApplyChainAllOff<F, C>(img: Image<F, C>, chain: seq<Effect>, gates: seq<bool>)
    requires |gates| == |chain|
    requires forall i :: 0 <= i < |gates| ==> !gates[i]
    ensures ApplyChain(img, chain, gates) == img
    decreases |chain|
  {
    if chain != [] {
      assert !gates[0];
      ApplyChainAllOff(img, chain[1..], gates[1..]);
    }
  }

  /** With every switch on each effect of the chain is applied once, in chain order. */
  lemma {:induction false} EnabledAllOn(chain: seq<Effect>, gates: seq<bool>)
    requires |gates| == |chain|
    requires forall i :: 0 <= i < |gates| ==> gates[i]
    ensures Enabled(chain, gates) == chain
  {
    if chain != [] {
      assert gates[0];
      EnabledAllOn(chain[1..], gates[1..]);
    }
  }

  /** `SynThaiger.generate` on the given draws, with `arrange` standing for the flow layout. */
  function Generate<F, C>(d: Draws<F, C>, arrange: seq<TextLayer<F, C>> -> Frame): (s: Sample<F, C>)
    requires ValidDraws(d)
    ensures |Base(s.image).group.layers| == d.count
    ensures forall i :: 0 <= i < d.count ==>
      Base(s.image).group.layers[i] == TextLayer(d.texts[i], d.colors[i], d.font)
    ensures Base(s.image).group.frame == arrange(Base(s.image).group.layers)
    ensures Base(s.image).background.size == Base(s.image).group.frame.size
    ensures Base(s.image).background.topleft == Base(s.image).group.frame.topleft
    ensures Base(s.image).background.color == d.bgColor
    ensures Base(s.image).background.textured == d.textured
    ensures Trace(s.image) == Enabled(Postprocess, d.gates)
    ensures s.labelText == Join(d.texts, " ")
    ensures s.font == d.font
  {
    var layers := TextLayers(d.texts, d.colors, d.font);
    var group := Group(layers, arrange(layers));
    var background := RectLayer(group.frame.size, d.bgColor, group.frame.topleft, d.textured);
    var composite := Flatten(group, background);
    ApplyChainTrace(composite, Postprocess, d.gates);
    Sample(ApplyChain(composite, Postprocess, d.gates), Join(d.texts, " "), d.font)
  }

  /**
   * The label has one space-separated token per fragment when no fragment holds
   * a space; it is empty for no fragment and the text itself for one.
   */
  lemma GenerateLabel<F, C>(d: Draws<F, C>, arrange: seq<TextLayer<F, C>> -> Frame)
    requires ValidDraws(d)
    ensures d.count == 0 ==> Generate(d, arrange).labelText == ""
    ensures d.count == 1 ==> Generate(d, arrange).labelText == d.texts[0]
    ensures d.count >= 1 && (forall k :: 0 <= k < d.count ==> ' ' !in d.texts[k]) ==>
      Split(Generate(d, arrange).labelText, ' ') == d.texts
    ensures |Generate(d, arrange).labelText| == TotalLength(d.texts) + (if d.count == 0 then 0 else d.count - 1)
  {
    JoinLength(d.texts, " ");
    if d.count >= 1 && (forall k :: 0 <= k < d.count ==> ' ' !in d.texts[k]) {
      SplitJoin(d.texts, ' ');
    }
  }

  /** With the post-processing switches all off, the image is the bare composite. */
  lemma GenerateWithoutEffects<F, C>(d: Draws<F, C>, arrange: seq<TextLayer<F, C>> -> Frame)
    requires ValidDraws(d)
    requires forall i :: 0 <= i < |d.gates| ==> !d.gates[i]
    ensures Generate(d, arrange).image ==
      var layers := TextLayers(d.texts, d.colors, d.font);
      var group := Group(layers, arrange(layers));
      Flatten(group, RectLayer(group.frame.size, d.bgColor, group.frame.topleft, d.textured))
  {
    var layers := TextLayers(d.texts, d.colors, d.font);
    var group := Group(layers, arrange(layers));
    ApplyChainAllOff(Flatten(group, RectLayer(group.frame.size, d.bgColor, group.frame.topleft, d.textured)), Postprocess, d.gates);
  }

  /** With them all on, noise, blur, resampling and median blur are each applied once, in that order. */
  lemma GenerateWithAllEffects<F, C>(d: Draws<F, C>, arrange: seq<TextLayer<F, C>> -> Frame)
    requires ValidDraws(d)
    requires forall i :: 0 <= i < |d.gates| ==> d.gates[i]
    ensures Trace(Generate(d, arrange).image) == [AdditiveGaussianNoise, GaussianBlur, Resample, MedianBlur]
  {
    EnabledAllOn(Postprocess, d.gates);
  }
}
