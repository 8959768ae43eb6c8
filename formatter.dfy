/**
 * The body of the `getfeatureinfo` handler that builds the popup's HTML
 * (app/static/script/app/plugins/WMSGetFeatureInfo.js, lines 95-133): the
 * feature's template rendered against its attributes, then the rates block
 * when a rate schedule is present, then the hours block when opening hours
 * are present.
 *
 * The blocks are specified as sequences of `Line`s, one per line of output,
 * so that their shape (how many lines, in which order) can be stated apart
 * from the text each line renders to.
 */
module Formatter {
  import opened Wrappers
  import opened Templates

  /** Attribute names and values, in the order a `for ... in` loop visits them. */
  type Attributes = seq<(string, string)>

  /** Ext.Template.applyTemplate: renders a template against values. Its
      placeholder substitution is not part of this model, so it is a parameter. */
  type Renderer = (Template, Attributes) -> string

  /** An `RS` entry of a decoded rate schedule: its scalar fields (TIME,
      DESC, RATE, ...) and its `RR` restrictions (an absent `RR` is empty).
      The source renders the rate line from the whole entry, `RR` included;
      here the line is rendered from `fields` alone, which assumes the rate
      template's placeholders (TIME, DESC, RATE) do not read `RR`. */
  datatype Rate = Rate(fields: Attributes, restrictions: seq<string>)

  /** A decoded `RATE_SCHED` attribute: its `RS` entries. */
  datatype RateSchedule = RateSchedule(entries: seq<Rate>)

  /** An `OPHRS` entry: the fields its line renders (DAYS, TIME). */
  datatype Hour = Hour(fields: Attributes)

  /** A decoded `OP_HRS` attribute: `OPHRS` is either one object or an array. */
  datatype OpeningHours = Single(hour: Hour) | Many(hours: seq<Hour>)

  datatype Point = Point(x: real, y: real)

  /** A feature's geometry, as the vertices it is made of. */
  datatype Geometry = Geometry(vertices: seq<Point>)

  /** A feature of a feature-info response: its GML feature type, its
      attributes, its already decoded rate schedule and opening hours (None
      when the decoded value is falsy) and its geometry. */
  datatype Feature = Feature(featureType: string, attributes: Attributes,
                             rates: Option<RateSchedule>, hours: Option<OpeningHours>,
                             geometry: Geometry)

  /** One line of a rates or hours block. */
  datatype Line = RateLine(rate: Rate) | RestrictionLine(text: string) | HourLine(hour: Hour)

  const RATES_HEADER: string :=
    "<div class=\"fullDisplay\"><span class=\"itemHeading itemHeadingRates\">Rates:</span><div class=\"rates\">"
  const HOURS_HEADER: string :=
    "<div class=\"fullDisplay\"><span class=\"itemHeading itemHeadingHours\">Hours:</span><div class=\"hours\">"
  const BLOCK_CLOSE: string := "</div></div>"
  const LINE_BREAK: string := "<br/>"

  function LineText(line: Line, render: Renderer): string
  {
    match line
    case RateLine(r) => render(RATE_TEMPLATE, r.fields)
    case RestrictionLine(s) => s + LINE_BREAK
    case HourLine(h) => render(HOUR_TEMPLATE, h.fields)
  }

  /** The text of the lines, one after the other. */
  function Concat(lines: seq<Line>, render: Renderer): string
  {
    if lines == [] then "" else Concat(lines[..|lines| - 1], render) + LineText(lines[|lines| - 1], render)
  }

  function RestrictionLines(rr: seq<string>): seq<Line>
  {
    if rr == [] then [] else RestrictionLines(rr[..|rr| - 1]) + [RestrictionLine(rr[|rr| - 1])]
  }

  /** A rate entry's line, immediately followed by its restriction lines. */
  function RateGroup(r: Rate): seq<Line>
  {
    [RateLine(r)] + RestrictionLines(r.restrictions)
  }

  function RateLines(rs: seq<Rate>): seq<Line>
  {
    if rs == [] then [] else RateLines(rs[..|rs| - 1]) + RateGroup(rs[|rs| - 1])
  }

  function HourSeqLines(hs: seq<Hour>): seq<Line>
  {
    if hs == [] then [] else HourSeqLines(hs[..|hs| - 1]) + [HourLine(hs[|hs| - 1])]
  }

  function HourLines(h: OpeningHours): seq<Line>
  {
    match h
    case Single(x) => [HourLine(x)]
    case Many(hs) => HourSeqLines(hs)
  }

  function RatesBlock(s: RateSchedule, render: Renderer): string
  {
    RATES_HEADER + Concat(RateLines(s.entries), render) + BLOCK_CLOSE
  }

  function HoursBlock(h: OpeningHours, render: Renderer): string
  {
    HOURS_HEADER + Concat(HourLines(h), render) + BLOCK_CLOSE
  }

  /** The HTML the handler builds for a feature in the given mode, or the
      error of a feature type the template table does not hold. */
  function FeatureInfoHtml(f: Feature, mode: Mode, render: Renderer): Result<string, TemplateError>
  {
    match Lookup(f.featureType, mode)
    case Err(e) => Err(e)
    case Ok(tpl) =>
      Ok(render(tpl, f.attributes)
         + (if f.rates.Some? then RatesBlock(f.rates.value, render) else "")
         + (if f.hours.Some? then HoursBlock(f.hours.value, render) else ""))
  }

  /** What `pick` takes from each line, line after line. */
  function Collect<T>(lines: seq<Line>, pick: Line -> seq<T>): seq<T>
  {
    if lines == [] then [] else Collect(lines[..|lines| - 1], pick) + pick(lines[|lines| - 1])
  }

  function RateOf(line: Line): seq<Rate>
  {
    if line.RateLine? then [line.rate] else []
  }

  function RestrictionOf(line: Line): seq<string>
  {
    if line.RestrictionLine? then [line.text] else []
  }

  function HourOf(line: Line): seq<Hour>
  {
    if line.HourLine? then [line.hour] else []
  }

  /** The rate entries whose lines appear, in order. */
  function RatesIn(lines: seq<Line>): seq<Rate>
  {
    Collect(lines, RateOf)
  }

  /** The restriction strings whose lines appear, in order. */
  function RestrictionsIn(lines: seq<Line>): seq<string>
  {
    Collect(lines, RestrictionOf)
  }

  /** The opening-hour entries whose lines appear, in order. */
  function HoursIn(lines: seq<Line>): seq<Hour>
  {
    Collect(lines, HourOf)
  }

  /** All `RR` restrictions of a rate schedule, entry after entry. */
  function AllRestrictions(rs: seq<Rate>): seq<string>
  {
    if rs == [] then [] else AllRestrictions(rs[..|rs| - 1]) + rs[|rs| - 1].restrictions
  }

  // ---------------------------------------------------------------------------
  // The handler's loops
  // ---------------------------------------------------------------------------

  /** Builds the HTML by appending to a string: the rendered feature
      template, then the rates block if a rate schedule is present, then the
      hours block if opening hours are present. */
  method FormatFeature(f: Feature, mode: Mode, render: Renderer) returns (r: Result<string, TemplateError>)
    ensures r == FeatureInfoHtml(f, mode, render)
  {
    var tpl := Lookup(f.featureType, mode);
    if tpl.Err? {
      return Err(tpl.error);
    }
    var html := render(tpl.value, f.attributes);
    var rates := "";
    if f.rates.Some? {
      rates := FormatRates(f.rates.value, render);
    }
    html := html + rates;
    var hours := "";
    if f.hours.Some? {
      hours := FormatHours(f.hours.value, render);
    }
    html := html + hours;
    return Ok(html);
  }

  /** The rates block: the header, then for each `RS` entry its line and
      then each of its `RR` restrictions followed by a line break, then the
      closing tags. */
  method FormatRates(s: RateSchedule, render: Renderer) returns (html: string)
    ensures html == RatesBlock(s, render)
  {
    html := RATES_HEADER;
    var rs := s.entries;
    var i := 0;
    assert rs[..0] == [];
    while i < |rs|
      invariant 0 <= i <= |rs|
      invariant html == RATES_HEADER + Concat(RateLines(rs[..i]), render)
    {
      var rate := rs[i];
      ghost var done := Concat(RateLines(rs[..i]), render);
      html := html + LineText(RateLine(rate), render);
      ghost var before := html;
      var rr := rate.restrictions;
      var j := 0;
      assert rr[..0] == [];
      while j < |rr|
        invariant 0 <= j <= |rr|
        invariant html == before + Concat(RestrictionLines(rr[..j]), render)
      {
        RestrictionStep(rr, j, render);
        SeqAssoc(before, Concat(RestrictionLines(rr[..j]), render), rr[j] + LINE_BREAK);
        html := html + (rr[j] + LINE_BREAK);
        j := j + 1;
      }
      assert rr[..j] == rr;
      RateStep(rs, i, render);
      SeqAssoc(RATES_HEADER, done, LineText(RateLine(rate), render));
      SeqAssoc(RATES_HEADER, done + LineText(RateLine(rate), render), Concat(RestrictionLines(rr), render));
      i := i + 1;
    }
    assert rs[..i] == rs;
    html := html + BLOCK_CLOSE;
  }

  /** The hours block: the header, then one line per `OPHRS` entry when it
      is an array, or one line for it when it is a single object, then the
      closing tags. */
  method FormatHours(h: OpeningHours, render: Renderer) returns (html: string)
    ensures html == HoursBlock(h, render)
  {
    html := HOURS_HEADER;
    match h {
      case Many(hs) =>
        var i := 0;
        assert hs[..0] == [];
        while i < |hs|
          invariant 0 <= i <= |hs|
          invariant html == HOURS_HEADER + Concat(HourSeqLines(hs[..i]), render)
        {
          HourStep(hs, i, render);
          SeqAssoc(HOURS_HEADER, Concat(HourSeqLines(hs[..i]), render), LineText(HourLine(hs[i]), render));
          html := html + LineText(HourLine(hs[i]), render);
          i := i + 1;
        }
        assert hs[..i] == hs;
      case Single(x) =>
        SingleHourText(x, render);
        html := html + LineText(HourLine(x), render);
    }
    html := html + BLOCK_CLOSE;
  }

  lemma RestrictionStep(rr: seq<string>, j: nat, render: Renderer)
    requires j < |rr|
    ensures Concat(RestrictionLines(rr[..j + 1]), render)
         == Concat(RestrictionLines(rr[..j]), render) + (rr[j] + LINE_BREAK)
  {
    assert rr[..j + 1][..j] == rr[..j];
    ConcatSnoc(RestrictionLines(rr[..j]), RestrictionLine(rr[j]), render);
  }

  lemma RateStep(rs: seq<Rate>, i: nat, render: Renderer)
    requires i < |rs|
    ensures Concat(RateLines(rs[..i + 1]), render)
         == Concat(RateLines(rs[..i]), render) + LineText(RateLine(rs[i]), render)
            + Concat(RestrictionLines(rs[i].restrictions), render)
  {
    assert rs[..i + 1][..i] == rs[..i];
    assert RateLines(rs[..i + 1]) == RateLines(rs[..i]) + RateGroup(rs[i]);
    ConcatRateGroup(RateLines(rs[..i]), rs[i], render);
  }

  lemma HourStep(hs: seq<Hour>, i: nat, render: Renderer)
    requires i < |hs|
    ensures Concat(HourSeqLines(hs[..i + 1]), render)
         == Concat(HourSeqLines(hs[..i]), render) + LineText(HourLine(hs[i]), render)
  {
    assert hs[..i + 1][..i] == hs[..i];
    ConcatSnoc(HourSeqLines(hs[..i]), HourLine(hs[i]), render);
  }

  lemma SingleHourText(x: Hour, render: Renderer)
    ensures Concat(HourLines(Single(x)), render) == LineText(HourLine(x), render)
  {
    assert [] + [HourLine(x)] == HourLines(Single(x));
    ConcatSnoc([], HourLine(x), render);
  }

  // ---------------------------------------------------------------------------
  // Lemmas about the blocks
  // ---------------------------------------------------------------------------

  lemma ConcatSnoc(lines: seq<Line>, line: Line, render: Renderer)
    ensures Concat(lines + [line], render) == Concat(lines, render) + LineText(line, render)
  {
    assert (lines + [line])[..|lines|] == lines;
  }

  lemma {:induction false} ConcatAppend(a: seq<Line>, b: seq<Line>, render: Renderer)
    ensures Concat(a + b, render) == Concat(a, render) + Concat(b, render)
    decreases |b|
  {
    if b == [] {
      assert a + b == a;
    } else {
      var c := b[..|b| - 1];
      assert a + b == (a + c) + [b[|b| - 1]];
      ConcatSnoc(a + c, b[|b| - 1], render);
      ConcatAppend(a, c, render);
    }
  }

  /** Appending a rate entry's group appends its line's text, then its
      restriction lines' text. */
  lemma ConcatRateGroup(done: seq<Line>, r: Rate, render: Renderer)
    ensures Concat(done + RateGroup(r), render)
         == Concat(done, render) + LineText(RateLine(r), render) + Concat(RestrictionLines(r.restrictions), render)
  {
    ConcatAppend(done, RateGroup(r), render);
    ConcatAppend([RateLine(r)], RestrictionLines(r.restrictions), render);
    assert Concat([RateLine(r)], render) == LineText(RateLine(r), render) by {
      assert [RateLine(r)][..0] == [];
    }
  }

  lemma {:induction false} CollectAppend<T>(a: seq<Line>, b: seq<Line>, pick: Line -> seq<T>)
    ensures Collect(a + b, pick) == Collect(a, pick) + Collect(b, pick)
    decreases |b|
  {
    if b == [] {
      assert a + b == a;
    } else {
      var c := b[..|b| - 1];
      assert (a + b)[..|a + b| - 1] == a + c;
      assert (a + b)[|a + b| - 1] == b[|b| - 1];
      CollectAppend(a, c, pick);
    }
  }

  lemma CollectSingle<T>(line: Line, pick: Line -> seq<T>)
    ensures Collect([line], pick) == pick(line)
  {
    assert [line][..0] == [];
  }

  lemma ProjectionsAppend(a: seq<Line>, b: seq<Line>)
    ensures RatesIn(a + b) == RatesIn(a) + RatesIn(b)
    ensures RestrictionsIn(a + b) == RestrictionsIn(a) + RestrictionsIn(b)
    ensures HoursIn(a + b) == HoursIn(a) + HoursIn(b)
  {
    CollectAppend(a, b, RateOf);
    CollectAppend(a, b, RestrictionOf);
    CollectAppend(a, b, HourOf);
  }

  /** The restriction lines are one line per restriction, in order, each a
      restriction line. */
  lemma {:induction false} RestrictionLinesShape(rr: seq<string>)
    ensures |RestrictionLines(rr)| == |rr|
    ensures forall k :: 0 <= k < |rr| ==> RestrictionLines(rr)[k] == RestrictionLine(rr[k])
    ensures RestrictionsIn(RestrictionLines(rr)) == rr
    ensures RatesIn(RestrictionLines(rr)) == [] && HoursIn(RestrictionLines(rr)) == []
  {
    if rr != [] {
      var init := rr[..|rr| - 1];
      RestrictionLinesShape(init);
      ProjectionsAppend(RestrictionLines(init), [RestrictionLine(rr[|rr| - 1])]);
      CollectSingle(RestrictionLine(rr[|rr| - 1]), RateOf);
      CollectSingle(RestrictionLine(rr[|rr| - 1]), RestrictionOf);
      CollectSingle(RestrictionLine(rr[|rr| - 1]), HourOf);
      assert [RestrictionLine(rr[|rr| - 1])][..0] == [];
    }
  }

  /** A rate entry's group: its own line, then one line per restriction. */
  lemma RateGroupShape(r: Rate)
    ensures |RateGroup(r)| == 1 + |r.restrictions|
    ensures RatesIn(RateGroup(r)) == [r]
    ensures RestrictionsIn(RateGroup(r)) == r.restrictions
    ensures HoursIn(RateGroup(r)) == []
  {
    RestrictionLinesShape(r.restrictions);
    ProjectionsAppend([RateLine(r)], RestrictionLines(r.restrictions));
    CollectSingle(RateLine(r), RateOf);
    CollectSingle(RateLine(r), RestrictionOf);
    CollectSingle(RateLine(r), HourOf);
  }

  /** Rates block shape: one rate line per `RS` entry plus one line per
      restriction; the rate lines are the entries in input order and the
      restriction lines are all the entries' `RR` strings in input order. */
  lemma {:induction false} RateLinesShape(rs: seq<Rate>)
    ensures |RateLines(rs)| == |rs| + |AllRestrictions(rs)|
    ensures RatesIn(RateLines(rs)) == rs
    ensures RestrictionsIn(RateLines(rs)) == AllRestrictions(rs)
    ensures HoursIn(RateLines(rs)) == []
  {
    if rs != [] {
      var init, r := rs[..|rs| - 1], rs[|rs| - 1];
      RateLinesShape(init);
      RateGroupShape(r);
      ProjectionsAppend(RateLines(init), RateGroup(r));
      assert init + [r] == rs;
    }
  }

  lemma SeqAssoc<T>(a: seq<T>, b: seq<T>, c: seq<T>)
    ensures a + b + c == a + (b + c)
  {
  }

  lemma {:induction false} RateLinesAppend(a: seq<Rate>, b: seq<Rate>)
    ensures RateLines(a + b) == RateLines(a) + RateLines(b)
    decreases |b|
  {
    if b == [] {
      assert a + b == a;
      assert RateLines(a) + RateLines(b) == RateLines(a) + [];
    } else {
      var c, x := b[..|b| - 1], b[|b| - 1];
      assert (a + b)[..|a + b| - 1] == a + c;
      assert (a + b)[|a + b| - 1] == x;
      assert RateLines(a + b) == RateLines(a + c) + RateGroup(x);
      RateLinesAppend(a, c);
      SeqAssoc(RateLines(a), RateLines(c), RateGroup(x));
      assert RateLines(b) == RateLines(c) + RateGroup(x);
    }
  }

  /** Each entry's rate line is immediately followed by that entry's
      restriction lines, with the earlier entries' lines before them and the
      later entries' lines after them. */
  lemma RateLinesAround(pre: seq<Rate>, x: Rate, post: seq<Rate>)
    ensures RateLines(pre + [x] + post)
         == RateLines(pre) + [RateLine(x)] + RestrictionLines(x.restrictions) + RateLines(post)
  {
    RateLinesAppend(pre + [x], post);
    assert RateLines(pre + [x]) == RateLines(pre) + RateGroup(x) by {
      assert (pre + [x])[..|pre|] == pre;
    }
    Regroup(RateLines(pre), RateGroup(x), RateLines(post), RateLine(x), RestrictionLines(x.restrictions));
  }

  lemma Regroup<T>(front: seq<T>, group: seq<T>, back: seq<T>, head: T, tail: seq<T>)
    requires group == [head] + tail
    ensures front + group + back == front + [head] + tail + back
  {
  }

  /** Hours block shape: an `OPHRS` array of n entries gives exactly n
      lines, the k-th rendering the k-th entry. */
  lemma {:induction false} HourLinesShape(hs: seq<Hour>)
    ensures |HourLines(Many(hs))| == |hs|
    ensures forall k :: 0 <= k < |hs| ==> HourLines(Many(hs))[k] == HourLine(hs[k])
    ensures HoursIn(HourLines(Many(hs))) == hs
  {
    if hs != [] {
      var init := hs[..|hs| - 1];
      HourLinesShape(init);
      ProjectionsAppend(HourSeqLines(init), [HourLine(hs[|hs| - 1])]);
      CollectSingle(HourLine(hs[|hs| - 1]), HourOf);
      assert [HourLine(hs[|hs| - 1])][..0] == [];
    }
  }

  /** A single `OPHRS` object is formatted exactly as a one-element array
      holding it. */
  lemma SingleHourAsOneElementArray(f: Feature, h: Hour, mode: Mode, render: Renderer)
    ensures FeatureInfoHtml(f.(hours := Some(Single(h))), mode, render)
         == FeatureInfoHtml(f.(hours := Some(Many([h]))), mode, render)
  {
    assert [h][..0] == [];
    assert HourSeqLines([h]) == [] + [HourLine(h)];
    assert [] + [HourLine(h)] == [HourLine(h)];
  }

  /** Fragment order and gating: the rendered feature template comes first;
      the rates block follows it exactly when a rate schedule is present;
      the hours block ends the output exactly when opening hours are
      present; with neither, the output is the rendered template alone. */
  lemma FragmentOrder(f: Feature, mode: Mode, render: Renderer)
    requires FeatureInfoHtml(f, mode, render).Ok?
    ensures var html := FeatureInfoHtml(f, mode, render).value;
            var head := render(Lookup(f.featureType, mode).value, f.attributes);
            && head <= html
            && (f.rates.Some? ==> head + RatesBlock(f.rates.value, render) <= html)
            && (f.rates.None? ==> html[|head|..] == (if f.hours.Some? then HoursBlock(f.hours.value, render) else ""))
            && (f.hours.Some? ==> html[|html| - |HoursBlock(f.hours.value, render)|..] == HoursBlock(f.hours.value, render))
            && (f.hours.None? ==> html == head + (if f.rates.Some? then RatesBlock(f.rates.value, render) else ""))
            && (f.rates.None? && f.hours.None? ==> html == head)
  {
  }
}
