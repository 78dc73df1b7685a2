/**
 * The text component of src/components/TextAnimation.tsx: it picks a class
 * string from its `variant`, then renders `text` in one of three forms chosen
 * by `animation`. Only what is rendered is modelled; tween timings are not.
 */
module TextAnimation {
  import opened Wrappers

  datatype Variant = Gradient | Regular | Outline

  datatype Animation = FadeIn | Staggered | Typewriter

  /** The props; a field left undefined is `None` and takes its default. */
  datatype Props = Props(
    text: string,
    variant: Option<Variant>,
    animation: Option<Animation>,
    className: Option<string>)

  /** What the component renders: the container's classes and its content. */
  datatype View =
    | FadeInView(classes: string, content: string)
    | StaggeredView(classes: string, spans: seq<char>)
    | TypewriterView(classes: string, content: string)

  /** The `variantClasses` table. */
  function VariantClass(v: Variant): string
  {
    match v
    case Gradient => "gradient-text"
    case Regular => "text-white"
    case Outline => "text-transparent bg-clip-text " + "border-white/30 border-2 p-2"
  }

  /** `${variantClasses[variant]} ${className}`: the variant's classes, one space, then the caller's. */
  function ClassNames(v: Variant, className: string): (r: string)
    ensures |r| == |VariantClass(v)| + 1 + |className|
    ensures r[..|VariantClass(v)|] == VariantClass(v)
    ensures r[|VariantClass(v)|] == ' '
    ensures r[|VariantClass(v)| + 1..] == className
  {
    VariantClass(v) + " " + className
  }

  /** The class string determines both the variant and the caller's extra classes. */
  lemma ClassNamesInjective(v1: Variant, c1: string, v2: Variant, c2: string)
    requires ClassNames(v1, c1) == ClassNames(v2, c2)
    ensures v1 == v2 && c1 == c2
  {
  }

  /** With the default variant and no extra classes the string is `"text-white "`. */
  lemma DefaultClassNames()
    ensures ClassNames(Regular, "") == "text-white "
  {
  }

  const NoBreakSpace: char := '\U{00A0}'

  /** The content of one staggered span: a space becomes a no-break space so that it keeps its width. */
  function Glyph(c: char): (g: char)
    ensures g != ' '
    ensures c == ' ' ==> g == NoBreakSpace
    ensures c != ' ' ==> g == c
  {
    if c == ' ' then NoBreakSpace else c
  }

  /** `text.split('').map(...)`: the spans of the staggered form, one per character, in order. */
  function Spans(text: string): (spans: seq<char>)
    ensures |spans| == |text|
    ensures forall i :: 0 <= i < |text| ==> spans[i] == Glyph(text[i])
  {
    if text == [] then [] else [Glyph(text[0])] + Spans(text[1..])
  }

  /** No span holds a plain space. */
  lemma SpansHaveNoSpace(text: string)
    ensures ' ' !in Spans(text)
  {
  }

  /** Mapping the spans again changes nothing. */
  lemma SpansIdempotent(text: string)
    ensures Spans(Spans(text)) == Spans(text)
  {
  }

  /** Reads a no-break space back as a space. */
  function Restore(spans: seq<char>): (text: string)
    ensures |text| == |spans|
    ensures forall i :: 0 <= i < |spans| ==> text[i] == (if spans[i] == NoBreakSpace then ' ' else spans[i])
  {
    if spans == [] then [] else [if spans[0] == NoBreakSpace then ' ' else spans[0]] + Restore(spans[1..])
  }

  /** A text without no-break spaces of its own is recovered from its spans: only that distinction is lost. */
  lemma RestoreSpans(text: string)
    requires NoBreakSpace !in text
    ensures Restore(Spans(text)) == text
  {
  }

  /** The component: defaults first (`regular`, `fadeIn`, no extra classes), then dispatch on `animation`. */
  function Render(p: Props): (v: View)
    ensures v.StaggeredView? <==> p.animation == Some(Staggered)
    ensures v.TypewriterView? <==> p.animation == Some(Typewriter)
    ensures v.FadeInView? <==> p.animation == None || p.animation == Some(FadeIn)
    ensures !v.StaggeredView? ==> v.content == p.text
    ensures v.StaggeredView? ==> v.spans == Spans(p.text)
    ensures v.StaggeredView? ==> |v.spans| == |p.text| && ' ' !in v.spans
    ensures v.StaggeredView? ==> forall i :: 0 <= i < |p.text| && p.text[i] != ' ' ==> v.spans[i] == p.text[i]
    ensures v.TypewriterView? ==> v.classes == ClassNames(p.variant.GetOr(Regular), p.className.GetOr("")) + " relative"
    ensures !v.TypewriterView? ==> v.classes == ClassNames(p.variant.GetOr(Regular), p.className.GetOr(""))
  {
    var classes := ClassNames(p.variant.GetOr(Regular), p.className.GetOr(""));
    match p.animation.GetOr(FadeIn)
    case Staggered => SpansHaveNoSpace(p.text); StaggeredView(classes, Spans(p.text))
    case Typewriter => TypewriterView(classes + " relative", p.text)
    case FadeIn => FadeInView(classes, p.text)
  }

  /** A component given only its text fades it in, whole and unchanged, with the classes `"text-white "`. */
  lemma RenderDefaults(text: string)
    ensures Render(Props(text, None, None, None)) == FadeInView("text-white ", text)
  {
  }
}
