/**
  The worker's signal formatter (src/index.js lines 33-43): a parsed JSON
  payload becomes five template lines joined by `"\n"`, with Telegram HTML markup. Absent sections read as
  `{}`; every shown field has a placeholder, chosen with `||` for some fields
  and with `??` for others. Field values are interpolated raw, without HTML
  escaping. The formatter throws a TypeError when the payload is null, when
  the confidence is neither a number nor null/undefined, or when a shown value
  has no string form.
 */
module Formatter {
  import opened JsValue
  import opened Strings

  const Dash: string := "\U{2014}"

  /** `v.key` on a value known not to be nullish. */
  function Prop(v: JsVal, key: string): JsVal
    requires !Nullish(v)
  {
    Get(v, key).value
  }

  /** `payload.name ?? {}`: a section, never nullish. */
  function Section(v: JsVal, name: string): (r: JsVal)
    requires !Nullish(v)
    ensures !Nullish(r)
  {
    Coalesce(Prop(v, name), EmptyObject)
  }

  /** The value each placeholder of the template receives, after defaulting. */
  datatype Chosen = Chosen(
    product: JsVal, symbol: JsVal, direction: JsVal,
    kind: JsVal, strength: JsVal, confidence: JsVal,
    timeframe: JsVal, price: JsVal,
    tp: JsVal, sl: JsVal, riskPct: JsVal,
    chart: JsVal)

  /** The text each placeholder of the template shows. */
  datatype Rendered = Rendered(
    product: string, symbol: string, direction: string,
    kind: string, strength: string, confidence: string,
    timeframe: string, price: string,
    tp: string, sl: string, riskPct: string,
    chart: string)

  /** Lines 33-42 up to interpolation: the sections, the field reads and their defaults. */
  function Choose(payload: JsVal): (r: Result<Chosen>)
    ensures r.Err? <==> Nullish(payload)
  {
    if Nullish(payload) then Err(TypeError)
    else
      var s := Section(payload, "signal");
      var m := Section(payload, "market");
      var r := Section(payload, "risk");
      var x := Section(s, "extras");
      var meta := Section(payload, "meta");
      Ok(Chosen(
        product := Or(Prop(payload, "product"), Str("KVFX")),
        symbol := Or(Prop(m, "symbol"), Str("?")),
        direction := Or(Prop(s, "direction"), Str("?")),
        kind := Or(Prop(s, "type"), Str("?")),
        strength := Coalesce(Prop(s, "strength"), Str(Dash)),
        confidence := Coalesce(Prop(s, "confidence"), Num(Finite(0.0))),
        timeframe := Or(Or(Prop(x, "tf"), Prop(m, "timeframe")), Str(Dash)),
        price := Coalesce(Prop(m, "price"), Str(Dash)),
        tp := Coalesce(Prop(r, "tp"), Str(Dash)),
        sl := Coalesce(Prop(r, "sl"), Str(Dash)),
        riskPct := Coalesce(Prop(r, "riskPct"), Str(Dash)),
        chart := Or(Prop(meta, "chart_url"), Str(Dash))))
  }

  /** Interpolation of every chosen value, and `toFixed(2)` of the confidence. */
  function Render(nt: NumberText, c: Chosen): Result<Rendered> {
    var product := Interpolate(nt, c.product);
    var symbol := Interpolate(nt, c.symbol);
    var direction := Interpolate(nt, c.direction);
    var kind := Interpolate(nt, c.kind);
    var strength := Interpolate(nt, c.strength);
    var confidence := ToFixed2(nt, c.confidence);
    var timeframe := Interpolate(nt, c.timeframe);
    var price := Interpolate(nt, c.price);
    var tp := Interpolate(nt, c.tp);
    var sl := Interpolate(nt, c.sl);
    var riskPct := Interpolate(nt, c.riskPct);
    var chart := Interpolate(nt, c.chart);
    if product.Ok? && symbol.Ok? && direction.Ok? && kind.Ok? && strength.Ok? && confidence.Ok?
       && timeframe.Ok? && price.Ok? && tp.Ok? && sl.Ok? && riskPct.Ok? && chart.Ok?
    then
      Ok(Rendered(product.value, symbol.value, direction.value, kind.value, strength.value,
                  confidence.value, timeframe.value, price.value, tp.value, sl.value,
                  riskPct.value, chart.value))
    else Err(TypeError)
  }

  /** The fixed text around the placeholders, line by line. */
  datatype Template = Template(
    head1: string, sep1a: string, sep1b: string,
    head2: string, sep2a: string, sep2b: string,
    head3: string, sep3: string,
    head4: string, sep4a: string, sep4b: string,
    head5: string)

  /** The worker's template, lines 38-42. */
  const Kvfx: Template := Template(
    "\U{1F9ED} <b>", "</b> \U{2022} <code>", "</code> ",
    "\U{1F514} <b>", "</b>  | \U{1F4AA} ", "/5  | \U{1F916} conf ",
    "\U{23F1} TF: ", "  \U{2022}  \U{1F4B5} ",
    "\U{1F3AF} TP: ", "  \U{2022}  \U{1F6E1} SL: ", "  \U{2022}  Risk%: ",
    "\U{1F517} Chart: ")

  /**
    The five lines, in their fixed order: product, symbol and direction;
    signal type, strength out of 5 and confidence; timeframe and price;
    take-profit, stop-loss and risk percent; chart link.
   */
  function Lines(t: Template, f: Rendered): seq<string> {
    [ t.head1 + f.product + t.sep1a + f.symbol + t.sep1b + f.direction,
      t.head2 + f.kind + t.sep2a + f.strength + t.sep2b + f.confidence,
      t.head3 + f.timeframe + t.sep3 + f.price,
      t.head4 + f.tp + t.sep4a + f.sl + t.sep4b + f.riskPct,
      t.head5 + f.chart ]
  }

  /** The formatter: lines 33-43, the `text` handed to Telegram. */
  function Format(nt: NumberText, payload: JsVal): Result<string> {
    match Choose(payload)
    case Err(e) => Err(e)
    case Ok(c) =>
      match Render(nt, c)
      case Err(e) => Err(e)
      case Ok(f) => Ok(Join(Lines(Kvfx, f), '\n'))
  }

  /** What each placeholder shows, for a payload the formatter accepts. */
  function Shown(nt: NumberText, payload: JsVal): Rendered
    requires Format(nt, payload).Ok?
  {
    Render(nt, Choose(payload).value).value
  }

  // ---------------------------------------------------------------------------
  // Failure

  /** Whether every chosen value can be shown: each has a string form and the confidence is a number. */
  predicate Showable(c: Chosen) {
    Printable(c.product) && Printable(c.symbol) && Printable(c.direction) && Printable(c.kind)
    && Printable(c.strength) && c.confidence.Num? && Printable(c.timeframe) && Printable(c.price)
    && Printable(c.tp) && Printable(c.sl) && Printable(c.riskPct) && Printable(c.chart)
  }

  /** Rendering fails exactly when some chosen value cannot be shown. */
  lemma RenderOkIff(nt: NumberText, c: Chosen)
    ensures Render(nt, c).Ok? <==> Showable(c)
    ensures Render(nt, c).Err? ==> Render(nt, c).fault == TypeError
  {
    InterpolateOkIff(nt, c.product);
    InterpolateOkIff(nt, c.symbol);
    InterpolateOkIff(nt, c.direction);
    InterpolateOkIff(nt, c.kind);
    InterpolateOkIff(nt, c.strength);
    InterpolateOkIff(nt, c.timeframe);
    InterpolateOkIff(nt, c.price);
    InterpolateOkIff(nt, c.tp);
    InterpolateOkIff(nt, c.sl);
    InterpolateOkIff(nt, c.riskPct);
    InterpolateOkIff(nt, c.chart);
  }

  /** The formatter fails exactly on a nullish payload or an unshowable value, and always with a TypeError. */
  lemma FormatOkIff(nt: NumberText, payload: JsVal)
    ensures Format(nt, payload).Ok? <==> !Nullish(payload) && Showable(Choose(payload).value)
    ensures Format(nt, payload).Err? ==> Format(nt, payload).fault == TypeError
  {
    if !Nullish(payload) {
      RenderOkIff(nt, Choose(payload).value);
    }
  }

  /**
    A non-numeric confidence is not defaulted: a string, boolean, array or
    object confidence makes the formatter throw.
   */
  lemma NonNumericConfidenceThrows(nt: NumberText, payload: JsVal)
    requires !Nullish(payload)
    requires var conf := Prop(Section(payload, "signal"), "confidence");
             !Nullish(conf) && !conf.Num?
    ensures Format(nt, payload) == Err(TypeError)
  {
  }

  // ---------------------------------------------------------------------------
  // Defaults

  /** Each shown text is the interpolation of its chosen value. */
  lemma ShownInterpolates(nt: NumberText, payload: JsVal)
    requires Format(nt, payload).Ok?
    ensures Choose(payload).Ok?
    ensures var c := Choose(payload).value;
            var f := Shown(nt, payload);
            && Ok(f.product) == Interpolate(nt, c.product) && Ok(f.symbol) == Interpolate(nt, c.symbol)
            && Ok(f.direction) == Interpolate(nt, c.direction) && Ok(f.kind) == Interpolate(nt, c.kind)
            && Ok(f.strength) == Interpolate(nt, c.strength) && Ok(f.confidence) == ToFixed2(nt, c.confidence)
            && Ok(f.timeframe) == Interpolate(nt, c.timeframe) && Ok(f.price) == Interpolate(nt, c.price)
            && Ok(f.tp) == Interpolate(nt, c.tp) && Ok(f.sl) == Interpolate(nt, c.sl)
            && Ok(f.riskPct) == Interpolate(nt, c.riskPct) && Ok(f.chart) == Interpolate(nt, c.chart)
  {
  }

  /**
    Fields defaulted with `||` (product, symbol, direction, type, chart URL)
    show their placeholder for every falsy value, the empty string included,
    and otherwise show the value itself, unescaped.
   */
  lemma OrDefaultedFields(nt: NumberText, payload: JsVal)
    requires Format(nt, payload).Ok?
    ensures !Nullish(payload)
    ensures var f := Shown(nt, payload);
            var s := Section(payload, "signal");
            var m := Section(payload, "market");
            var meta := Section(payload, "meta");
            var product := Prop(payload, "product");
            var symbol := Prop(m, "symbol");
            var direction := Prop(s, "direction");
            var kind := Prop(s, "type");
            var chart := Prop(meta, "chart_url");
            && (if Falsy(product) then f.product == "KVFX" else Ok(f.product) == Interpolate(nt, product))
            && (if Falsy(symbol) then f.symbol == "?" else Ok(f.symbol) == Interpolate(nt, symbol))
            && (if Falsy(direction) then f.direction == "?" else Ok(f.direction) == Interpolate(nt, direction))
            && (if Falsy(kind) then f.kind == "?" else Ok(f.kind) == Interpolate(nt, kind))
            && (if Falsy(chart) then f.chart == Dash else Ok(f.chart) == Interpolate(nt, chart))
  {
    ShownInterpolates(nt, payload);
  }

  /**
    Fields defaulted with `??` (strength, price, and the risk fields below)
    show their placeholder only for null and undefined; `0`, `false` and `""`
    are shown as they are.
   */
  lemma CoalesceDefaultedFields(nt: NumberText, payload: JsVal)
    requires Format(nt, payload).Ok?
    ensures !Nullish(payload)
    ensures var f := Shown(nt, payload);
            var strength := Prop(Section(payload, "signal"), "strength");
            var price := Prop(Section(payload, "market"), "price");
            && (if Nullish(strength) then f.strength == Dash else Ok(f.strength) == Interpolate(nt, strength))
            && (if Nullish(price) then f.price == Dash else Ok(f.price) == Interpolate(nt, price))
  {
    ShownInterpolates(nt, payload);
  }

  /** Take-profit, stop-loss and risk percent are defaulted with `??` too. */
  lemma RiskFieldsDefaulted(nt: NumberText, payload: JsVal)
    requires Format(nt, payload).Ok?
    ensures !Nullish(payload)
    ensures var f := Shown(nt, payload);
            var r := Section(payload, "risk");
            var tp := Prop(r, "tp");
            var sl := Prop(r, "sl");
            var riskPct := Prop(r, "riskPct");
            && (if Nullish(tp) then f.tp == Dash else Ok(f.tp) == Interpolate(nt, tp))
            && (if Nullish(sl) then f.sl == Dash else Ok(f.sl) == Interpolate(nt, sl))
            && (if Nullish(riskPct) then f.riskPct == Dash else Ok(f.riskPct) == Interpolate(nt, riskPct))
  {
    ShownInterpolates(nt, payload);
  }

  /**
    The confidence is `toFixed(2)` of the number given, or of 0 when it is
    null or undefined.
   */
  lemma ConfidenceShown(nt: NumberText, payload: JsVal)
    requires Format(nt, payload).Ok?
    ensures !Nullish(payload)
    ensures var conf := Prop(Section(payload, "signal"), "confidence");
            Shown(nt, payload).confidence
              == if Nullish(conf) then nt.fixed2(Finite(0.0)) else nt.fixed2(conf.n)
  {
    FormatOkIff(nt, payload);
  }

  /**
    The timeframe is `signal.extras.tf` if truthy, else `market.timeframe` if
    truthy, else the placeholder.
   */
  lemma TimeframeShown(nt: NumberText, payload: JsVal)
    requires Format(nt, payload).Ok?
    ensures !Nullish(payload)
    ensures var tf := Prop(Section(Section(payload, "signal"), "extras"), "tf");
            var timeframe := Prop(Section(payload, "market"), "timeframe");
            var f := Shown(nt, payload);
            if !Falsy(tf) then Ok(f.timeframe) == Interpolate(nt, tf)
            else if !Falsy(timeframe) then Ok(f.timeframe) == Interpolate(nt, timeframe)
            else f.timeframe == Dash
  {
    ShownInterpolates(nt, payload);
  }

  /**
    The contrast the two operators make: an empty-string symbol shows "?",
    while a zero strength shows the number and an empty-string strength
    shows nothing.
   */
  lemma EmptyAndZeroDefaults(nt: NumberText, payload: JsVal)
    requires Format(nt, payload).Ok?
    ensures !Nullish(payload)
    ensures Prop(Section(payload, "market"), "symbol") == Str("") ==> Shown(nt, payload).symbol == "?"
    ensures var strength := Prop(Section(payload, "signal"), "strength");
            && (strength == Num(Finite(0.0)) ==> Shown(nt, payload).strength == nt.show(Finite(0.0)))
            && (strength == Str("") ==> Shown(nt, payload).strength == "")
  {
    OrDefaultedFields(nt, payload);
    CoalesceDefaultedFields(nt, payload);
  }

  /**
    A payload with no `signal`, `market`, `risk` and `meta` sections (absent
    or null) is formatted, not rejected, provided its product is printable (an
    absent product is): every field but the product shows
    its placeholder, and the confidence shows 0 to two decimals.
   */
  lemma AbsentSections(nt: NumberText, payload: JsVal)
    requires !Nullish(payload)
    requires Nullish(Prop(payload, "signal")) && Nullish(Prop(payload, "market"))
    requires Nullish(Prop(payload, "risk")) && Nullish(Prop(payload, "meta"))
    requires Printable(Prop(payload, "product"))
    ensures Format(nt, payload).Ok?
    ensures var f := Shown(nt, payload);
            f.symbol == "?" && f.direction == "?" && f.kind == "?" && f.strength == Dash
            && f.confidence == nt.fixed2(Finite(0.0)) && f.timeframe == Dash && f.price == Dash
            && f.tp == Dash && f.sl == Dash && f.riskPct == Dash && f.chart == Dash
  {
    FormatOkIff(nt, payload);
  }

  /** Without a `risk` section, take-profit, stop-loss and risk percent all show the placeholder. */
  lemma AbsentRisk(nt: NumberText, payload: JsVal)
    requires Format(nt, payload).Ok?
    requires !Nullish(payload) && Nullish(Prop(payload, "risk"))
    ensures var f := Shown(nt, payload);
            f.tp == Dash && f.sl == Dash && f.riskPct == Dash
  {
  }

  // ---------------------------------------------------------------------------
  // Layout

  /** No placeholder text contains a line break. */
  predicate SingleLineFields(f: Rendered) {
    '\n' !in f.product && '\n' !in f.symbol && '\n' !in f.direction
    && '\n' !in f.kind && '\n' !in f.strength && '\n' !in f.confidence
    && '\n' !in f.timeframe && '\n' !in f.price
    && '\n' !in f.tp && '\n' !in f.sl && '\n' !in f.riskPct
    && '\n' !in f.chart
  }

  function Newlines(s: string): nat {
    Occurrences(s, '\n')
  }

  /** The line breaks in the placeholder texts. */
  function FieldNewlines(f: Rendered): nat {
    Newlines(f.product) + Newlines(f.symbol) + Newlines(f.direction) + Newlines(f.kind)
    + Newlines(f.strength) + Newlines(f.confidence) + Newlines(f.timeframe) + Newlines(f.price)
    + Newlines(f.tp) + Newlines(f.sl) + Newlines(f.riskPct) + Newlines(f.chart)
  }

  lemma NewlinesAppend(a: string, b: string)
    ensures Newlines(a + b) == Newlines(a) + Newlines(b)
  {
    OccurrencesAppend(a, b, '\n');
  }

  lemma NoBreak(s: string)
    requires '\n' !in s
    ensures Newlines(s) == 0
  {
    OccurrencesAbsent(s, '\n');
  }

  /** A template whose own text has no line break. */
  predicate SingleLineTemplate(t: Template) {
    '\n' !in t.head1 && '\n' !in t.sep1a && '\n' !in t.sep1b
    && '\n' !in t.head2 && '\n' !in t.sep2a && '\n' !in t.sep2b
    && '\n' !in t.head3 && '\n' !in t.sep3
    && '\n' !in t.head4 && '\n' !in t.sep4a && '\n' !in t.sep4b
    && '\n' !in t.head5
  }

  lemma KvfxSingleLine()
    ensures SingleLineTemplate(Kvfx)
  {
  }

  /** Line breaks of a template line: fixed text `a`, `b`, `c` around fields `p`, `q`, `r`. */
  lemma {:induction false} TemplateLineNewlines(a: string, p: string, b: string, q: string, c: string, r: string)
    requires '\n' !in a && '\n' !in b && '\n' !in c
    ensures Newlines(a + p + b + q + c + r) == Newlines(p) + Newlines(q) + Newlines(r)
  {
    NoBreak(a);
    NoBreak(b);
    NoBreak(c);
    NewlinesAppend(a, p);
    NewlinesAppend(a + p, b);
    NewlinesAppend(a + p + b, q);
    NewlinesAppend(a + p + b + q, c);
    NewlinesAppend(a + p + b + q + c, r);
  }

  lemma LineNewlines(t: Template, f: Rendered)
    requires SingleLineTemplate(t)
    ensures var ls := Lines(t, f);
            && Newlines(ls[0]) == Newlines(f.product) + Newlines(f.symbol) + Newlines(f.direction)
            && Newlines(ls[1]) == Newlines(f.kind) + Newlines(f.strength) + Newlines(f.confidence)
            && Newlines(ls[2]) == Newlines(f.timeframe) + Newlines(f.price)
            && Newlines(ls[3]) == Newlines(f.tp) + Newlines(f.sl) + Newlines(f.riskPct)
            && Newlines(ls[4]) == Newlines(f.chart)
  {
    var ls := Lines(t, f);
    TemplateLineNewlines(t.head1, f.product, t.sep1a, f.symbol, t.sep1b, f.direction);
    TemplateLineNewlines(t.head2, f.kind, t.sep2a, f.strength, t.sep2b, f.confidence);
    TemplateLineNewlines(t.head3, f.timeframe, t.sep3, f.price, "", "");
    assert t.head3 + f.timeframe + t.sep3 + f.price + "" + "" == ls[2];
    TemplateLineNewlines(t.head4, f.tp, t.sep4a, f.sl, t.sep4b, f.riskPct);
    TemplateLineNewlines(t.head5, f.chart, "", "", "", "");
    assert t.head5 + f.chart + "" + "" + "" + "" == ls[4];
  }

  /** Joining five lines puts exactly four separators between them. */
  lemma JoinFive(ls: seq<string>, sep: char)
    requires |ls| == 5
    ensures Join(ls, sep) == ls[0] + [sep] + (ls[1] + [sep] + (ls[2] + [sep] + (ls[3] + [sep] + ls[4])))
  {
    var l1 := ls[1..];
    var l2 := l1[1..];
    var l3 := l2[1..];
    assert l3[1..] == [ls[4]];
    assert Join(l3, sep) == ls[3] + [sep] + ls[4];
    assert Join(l2, sep) == ls[2] + [sep] + Join(l3, sep);
    assert Join(l1, sep) == ls[1] + [sep] + Join(l2, sep);
  }

  lemma {:induction false} JoinedLinesNewlines(t: Template, f: Rendered)
    requires SingleLineTemplate(t)
    ensures Newlines(Join(Lines(t, f), '\n')) == 4 + FieldNewlines(f)
  {
    var ls := Lines(t, f);
    LineNewlines(t, f);
    JoinFive(ls, '\n');
    assert Newlines("\n") == 1;
    NewlinesAppend(ls[3] + "\n", ls[4]);
    NewlinesAppend(ls[3], "\n");
    var j3 := ls[3] + "\n" + ls[4];
    NewlinesAppend(ls[2] + "\n", j3);
    NewlinesAppend(ls[2], "\n");
    var j2 := ls[2] + "\n" + j3;
    NewlinesAppend(ls[1] + "\n", j2);
    NewlinesAppend(ls[1], "\n");
    var j1 := ls[1] + "\n" + j2;
    NewlinesAppend(ls[0] + "\n", j1);
    NewlinesAppend(ls[0], "\n");
  }

  /**
    The text holds the four line breaks that separate the five template lines,
    plus whatever line breaks the field values bring in; so it has exactly
    five lines precisely when no field value contains a line break.
   */
  lemma {:induction false} TextNewlines(nt: NumberText, payload: JsVal)
    requires Format(nt, payload).Ok?
    ensures Newlines(Format(nt, payload).value) == 4 + FieldNewlines(Shown(nt, payload))
    ensures Newlines(Format(nt, payload).value) == 4 <==> SingleLineFields(Shown(nt, payload))
  {
    var f := Shown(nt, payload);
    KvfxSingleLine();
    JoinedLinesNewlines(Kvfx, f);
    assert Format(nt, payload).value == Join(Lines(Kvfx, f), '\n');
    SingleLineFieldsCount(f);
  }

  lemma SingleLineFieldsCount(f: Rendered)
    ensures FieldNewlines(f) == 0 <==> SingleLineFields(f)
  {
    OccurrencesAbsent(f.product, '\n');
    OccurrencesAbsent(f.symbol, '\n');
    OccurrencesAbsent(f.direction, '\n');
    OccurrencesAbsent(f.kind, '\n');
    OccurrencesAbsent(f.strength, '\n');
    OccurrencesAbsent(f.confidence, '\n');
    OccurrencesAbsent(f.timeframe, '\n');
    OccurrencesAbsent(f.price, '\n');
    OccurrencesAbsent(f.tp, '\n');
    OccurrencesAbsent(f.sl, '\n');
    OccurrencesAbsent(f.riskPct, '\n');
    OccurrencesAbsent(f.chart, '\n');
  }

  lemma {:induction false} SplitLines(t: Template, f: Rendered)
    requires SingleLineTemplate(t) && SingleLineFields(f)
    ensures Split(Join(Lines(t, f), '\n'), '\n') == Lines(t, f)
  {
    var ls := Lines(t, f);
    LineNewlines(t, f);
    SingleLineFieldsCount(f);
    forall i | 0 <= i < |ls| ensures '\n' !in ls[i] {
      OccurrencesAbsent(ls[i], '\n');
    }
    SplitJoin(ls, '\n');
  }

  /**
    When no field value contains a line break, splitting the text at "\n"
    gives back the five template lines in their fixed order.
   */
  lemma FiveLines(nt: NumberText, payload: JsVal)
    requires Format(nt, payload).Ok?
    requires SingleLineFields(Shown(nt, payload))
    ensures Split(Format(nt, payload).value, '\n') == Lines(Kvfx, Shown(nt, payload))
  {
    KvfxSingleLine();
    SplitLines(Kvfx, Shown(nt, payload));
  }
}
