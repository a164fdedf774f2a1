/** The build recipe of the image scan: the `scanTemplate` Dockerfile
    template, the `imageScanConfig` it is executed with, and the generated
    build tag `scan-<nanoseconds>`. Go's html/template escapes every value it
    substitutes into a text node with its replacement table for NUL, `"`,
    `&`, `'`, `+`, `<` and `>`; ordinary image references and tags contain
    none of these and are substituted unchanged. */
module Recipe {
  import opened Wrappers
  import opened Text

  datatype ImageScanConfig = ImageScanConfig(image: string, buildImage: string)

  /** A parsed template: literal text and the two field actions. */
  datatype Segment = Literal(text: string) | ImageField | BuildImageField

  /** The template source text, placeholder by placeholder. */
  const ImageAction: string := "{{.Image}}"
  const BuildImageAction: string := "{{.BuildImage}}"

  /** The literal text around the two actions of `scanTemplate`. */
  const Head: string := "FROM ehazlett/microscanner:latest as scanner\n\nFROM "
  const Middle: string := " as "
  const Tail: string :=
    "\nUSER root\nCOPY --from=scanner /microscanner /microscanner\nARG token\n# TODO: verify ca\n"
    + "RUN /microscanner --continue-on-failure --no-verify ${token} > /scan.json\n"
    + "ENTRYPOINT []\nCMD cat /scan.json"

  /** `scanTemplate` as parsed. */
  const ScanTemplate: seq<Segment> := [Literal(Head), ImageField, Literal(Middle), BuildImageField, Literal(Tail)]

  /** The text one segment was written as. */
  function SegmentSource(seg: Segment): string
  {
    match seg
    case Literal(s) => s
    case ImageField => ImageAction
    case BuildImageField => BuildImageAction
  }

  /** The text a parsed template was written as. */
  function Source(t: seq<Segment>): string
  {
    if t == [] then "" else SegmentSource(t[0]) + Source(t[1..])
  }

  /** html/template's replacement for one character of a text-node value. */
  function EscapeChar(c: char): string
  {
    if c == 0 as char then "�"
    else if c == '"' then "&#34;"
    else if c == '&' then "&amp;"
    else if c == '\'' then "&#39;"
    else if c == '+' then "&#43;"
    else if c == '<' then "&lt;"
    else if c == '>' then "&gt;"
    else [c]
  }

  predicate NeedsEscape(c: char)
  {
    c == 0 as char || c == '"' || c == '&' || c == '\'' || c == '+' || c == '<' || c == '>'
  }

  /** A value html/template substitutes unchanged. */
  predicate Plain(s: string)
  {
    forall i :: 0 <= i < |s| ==> !NeedsEscape(s[i])
  }

  function Escape(s: string): string
  {
    if s == [] then "" else EscapeChar(s[0]) + Escape(s[1..])
  }

  lemma {:induction false} EscapePlain(s: string)
    requires Plain(s)
    ensures Escape(s) == s
    decreases |s|
  {
    if s != [] {
      EscapePlain(s[1..]);
      assert [s[0]] + s[1..] == s;
    }
  }

  /** What one segment writes: its text, or the escaped field. */
  function SegmentOutput(seg: Segment, cfg: ImageScanConfig): string
  {
    match seg
    case Literal(s) => s
    case ImageField => Escape(cfg.image)
    case BuildImageField => Escape(cfg.buildImage)
  }

  /** `t.Execute(w, cfg)`: each action writes its escaped field. */
  function Execute(t: seq<Segment>, cfg: ImageScanConfig): string
  {
    if t == [] then "" else SegmentOutput(t[0], cfg) + Execute(t[1..], cfg)
  }

  /** The rendered recipe of a scan. */
  function Render(cfg: ImageScanConfig): string
  {
    Execute(ScanTemplate, cfg)
  }

  /** A template's text and output are those of its first segment
      followed by those of the rest. */
  lemma SegmentCons(seg: Segment, rest: seq<Segment>, cfg: ImageScanConfig)
    ensures Source([seg] + rest) == SegmentSource(seg) + Source(rest)
    ensures Execute([seg] + rest, cfg) == SegmentOutput(seg, cfg) + Execute(rest, cfg)
  {
    assert ([seg] + rest)[1..] == rest;
  }

  /** Source and execution of a template shaped like `scanTemplate`. */
  lemma FiveSegments(a: string, b: string, c: string, cfg: ImageScanConfig)
    ensures var t := [Literal(a), ImageField, Literal(b), BuildImageField, Literal(c)];
      && Source(t) == a + (ImageAction + (b + (BuildImageAction + c)))
      && Execute(t, cfg) == a + (Escape(cfg.image) + (b + (Escape(cfg.buildImage) + c)))
  {
    var t4: seq<Segment> := [Literal(c)];
    SegmentCons(Literal(c), [], cfg);
    assert t4 == [Literal(c)] + [];
    SegmentCons(BuildImageField, t4, cfg);
    SegmentCons(Literal(b), [BuildImageField] + t4, cfg);
    SegmentCons(ImageField, [Literal(b)] + ([BuildImageField] + t4), cfg);
    SegmentCons(Literal(a), [ImageField] + ([Literal(b)] + ([BuildImageField] + t4)), cfg);
    assert [Literal(a)] + ([ImageField] + ([Literal(b)] + ([BuildImageField] + t4)))
      == [Literal(a), ImageField, Literal(b), BuildImageField, Literal(c)];
  }

  /** `scanTemplate` is the fixed text with `{{.Image}}` after the second
      `FROM` and `{{.BuildImage}}` as that stage's name; rendering puts the
      escaped fields in place of the two actions. */
  lemma RenderSubstitutes(cfg: ImageScanConfig)
    ensures Source(ScanTemplate) == Head + (ImageAction + (Middle + (BuildImageAction + Tail)))
    ensures Render(cfg) == Head + (Escape(cfg.image) + (Middle + (Escape(cfg.buildImage) + Tail)))
  {
    FiveSegments(Head, Middle, Tail, cfg);
  }

  /** `fmt.Sprintf("scan-%d", nanos)`. */
  function Tag(nanos: int): string
  {
    "scan-" + IntToDec(nanos)
  }

  /** A tag is `scan-` and the clock reading in decimal, which reads back
      as the reading, so tags of distinct readings differ; a tag is
      substituted into the recipe unchanged. */
  lemma TagProperties(m: int, n: int)
    ensures |Tag(n)| > 5 && Tag(n)[..5] == "scan-" && ParseInt(Tag(n)[5..]) == Some(n)
    ensures m != n ==> Tag(m) != Tag(n)
    ensures Plain(Tag(n)) && Escape(Tag(n)) == Tag(n)
  {
    assert Tag(m)[5..] == IntToDec(m);
    assert Tag(n)[5..] == IntToDec(n);
    IntToDecRoundTrip(n);
    if Tag(m) == Tag(n) {
      IntToDecInjective(m, n);
    }
    EscapePlain(Tag(n));
  }

  /** The recipe built for `image` and tag `Tag(nanos)`: the fixed text with
      the target image (escaped) after the second `FROM` and the tag as its
      stage name. */
  lemma RecipeForScan(image: string, nanos: int)
    ensures Render(ImageScanConfig(image, Tag(nanos))) == Head + (Escape(image) + (Middle + (Tag(nanos) + Tail)))
    ensures Plain(image) ==> Render(ImageScanConfig(image, Tag(nanos))) == Head + (image + (Middle + (Tag(nanos) + Tail)))
  {
    RenderSubstitutes(ImageScanConfig(image, Tag(nanos)));
    TagProperties(nanos, nanos);
    if Plain(image) {
      EscapePlain(image);
    }
  }
}
