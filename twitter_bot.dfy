/**
 * Rate-change detection and the cross-post decision of the caución bot:
 * `calculate_changes`, `TwitterBot.should_tweet` and `TwitterBot.format_tweet`.
 *
 * Rates are exact reals. The browser automation that actually posts is not
 * modelled; neither function touches the bot's fields, so no class is needed.
 */
module TwitterBot {
  import opened Outcomes

  /** `TWEET_THRESHOLD`: a rise of at least this many absolute percentage points is posted. */
  const TweetThreshold: real := 5.0

  /** A move of at most this size is feed noise, not a change. */
  const Eps: real := 0.001

  /** The fixed tenors, in the order `calculate_changes` visits them. */
  const Periods: seq<string> := ["1d", "2d", "3d", "7d"]

  /** A rate dict: the rate of each tenor it holds, and its optional `timestamp` entry. */
  datatype Rates = Rates(values: map<string, real>, timestamp: Option<string>)

  /**
   * One tenor's entry of a change dict. A zero previous rate yields the short
   * entry without `old`/`new`; every other previous rate yields the full one.
   */
  datatype RateChange =
    | ZeroBase(absolute: real, percentage: real, changed: bool)
    | Move(oldValue: real, newValue: real, absolute: real, percentage: real, changed: bool)

  /** A change dict, keyed by tenor name. */
  type ChangeSet = map<string, RateChange>

  function Abs(x: real): real
  {
    if x < 0.0 then -x else x
  }

  /** `rates.get(period, 0)`. */
  function Get(rates: map<string, real>, period: string): real
  {
    if period in rates then rates[period] else 0.0
  }

  /** The entry `calculate_changes` builds for one tenor. */
  function ChangeFor(oldValue: real, newValue: real): (c: RateChange)
    ensures c.ZeroBase? <==> oldValue == 0.0
    ensures c.changed ==> c.absolute != 0.0
  {
    if oldValue == 0.0 then ZeroBase(0.0, 0.0, false)
    else
      var absolute := newValue - oldValue;
      Move(oldValue, newValue, absolute, absolute / oldValue * 100.0, Abs(absolute) > Eps)
  }

  /** The change dict `calculate_changes(old_rates, new_rates)` returns. */
  function Diff(oldRates: map<string, real>, newRates: map<string, real>): (d: ChangeSet)
    ensures d.Keys == {"1d", "2d", "3d", "7d"}
  {
    map p | p in Periods :: ChangeFor(Get(oldRates, p), Get(newRates, p))
  }

  /** `calculate_changes`: fills the change dict one tenor at a time. */
  method CalculateChanges(oldRates: map<string, real>, newRates: map<string, real>)
    returns (changes: ChangeSet)
    ensures changes == Diff(oldRates, newRates)
  {
    changes := map[];
    for i := 0 to |Periods|
      invariant changes.Keys == set k | 0 <= k < i :: Periods[k]
      invariant forall p :: p in changes ==> changes[p] == ChangeFor(Get(oldRates, p), Get(newRates, p))
    {
      var period := Periods[i];
      var oldValue := Get(oldRates, period);
      var newValue := Get(newRates, period);
      if oldValue == 0.0 {
        changes := changes[period := ZeroBase(0.0, 0.0, false)];
      } else {
        var absoluteChange := newValue - oldValue;
        var percentageChange := (absoluteChange / oldValue) * 100.0;
        changes := changes[period := Move(oldValue, newValue, absoluteChange, percentageChange,
                                          Abs(absoluteChange) > Eps)];
      }
    }
    assert changes.Keys == set p | p in Periods;
  }

  /**
   * A tenor's entry read back: it records both rates, and the new rate is the
   * old one moved by the absolute delta, or grown by the relative one.
   */
  lemma MoveReconstructsNewRate(oldValue: real, newValue: real)
    requires oldValue != 0.0
    ensures ChangeFor(oldValue, newValue).Move?
    ensures ChangeFor(oldValue, newValue).oldValue == oldValue && ChangeFor(oldValue, newValue).newValue == newValue
    ensures ChangeFor(oldValue, newValue).oldValue + ChangeFor(oldValue, newValue).absolute == newValue
    ensures oldValue * (1.0 + ChangeFor(oldValue, newValue).percentage / 100.0) == newValue
  {
  }

  /** A tenor counts as changed exactly when its previous rate is non-zero and it moved by more than `Eps`, either way. */
  lemma ChangedIffBeyondEps(oldRates: map<string, real>, newRates: map<string, real>, p: string)
    requires p in Periods
    ensures p in Diff(oldRates, newRates)
    ensures Diff(oldRates, newRates)[p].changed <==>
              Get(oldRates, p) != 0.0 &&
              (Get(newRates, p) - Get(oldRates, p) > Eps || Get(oldRates, p) - Get(newRates, p) > Eps)
  {
  }

  /** The zero guard: a zero (or missing) previous rate gives the all-zero, unchanged entry whatever the new rate. */
  lemma ZeroBaseUnchanged(oldRates: map<string, real>, newRates: map<string, real>, p: string)
    requires p in Periods && Get(oldRates, p) == 0.0
    ensures p in Diff(oldRates, newRates)
    ensures Diff(oldRates, newRates)[p] == ZeroBase(0.0, 0.0, false)
  {
  }

  /** Comparing a snapshot with itself reports no change and zero deltas on every tenor. */
  lemma DiffSelfUnchanged(rates: map<string, real>)
    ensures forall p :: p in Diff(rates, rates) ==>
              !Diff(rates, rates)[p].changed && Diff(rates, rates)[p].absolute == 0.0 &&
              Diff(rates, rates)[p].percentage == 0.0
  {
  }

  /** A tenor missing from either dict is read as 0, and keys other than the four tenors are ignored. */
  lemma DiffReadsOnlyTenors(o1: map<string, real>, n1: map<string, real>, o2: map<string, real>, n2: map<string, real>)
    requires forall p :: p in Periods ==> Get(o1, p) == Get(o2, p) && Get(n1, p) == Get(n2, p)
    ensures Diff(o1, n1) == Diff(o2, n2)
  {
  }

  /** `should_tweet`'s rule: some changed tenor rose by at least `TweetThreshold`. */
  predicate Warrants(changes: Option<ChangeSet>): (b: bool)
    ensures b ==> changes.Some? && changes.value != map[]
  {
    changes.Some? &&
    exists p :: p in changes.value && changes.value[p].changed && changes.value[p].absolute >= TweetThreshold
  }

  /** `should_tweet`: scans the tenors and stops at the first qualifying rise. */
  method ShouldTweet(changes: Option<ChangeSet>) returns (b: bool)
    ensures b == Warrants(changes)
  {
    if changes.None? || changes.value == map[] {
      return false;
    }
    var cs := changes.value;
    var remaining := cs.Keys;
    while remaining != {}
      invariant remaining <= cs.Keys
      invariant forall p :: p in cs && p !in remaining ==> !(cs[p].changed && cs[p].absolute >= TweetThreshold)
      decreases remaining
    {
      var period :| period in remaining;
      if cs[period].changed {
        if cs[period].absolute >= TweetThreshold {
          return true;
        }
      }
      remaining := remaining - {period};
    }
    return false;
  }

  /** Applied to a fresh diff, the rule posts exactly when some tenor with a non-zero base rose by 5 points or more. */
  lemma WarrantsDiffIff(oldRates: map<string, real>, newRates: map<string, real>)
    ensures Warrants(Some(Diff(oldRates, newRates))) <==>
              exists p :: p in Periods && Get(oldRates, p) != 0.0 &&
                          Get(newRates, p) - Get(oldRates, p) >= TweetThreshold
  {
  }

  /** Drops never post: if no tenor rose, there is nothing to post, however large the fall. */
  lemma DropsNeverWarrant(oldRates: map<string, real>, newRates: map<string, real>)
    requires forall p :: p in Periods ==> Get(newRates, p) <= Get(oldRates, p)
    ensures !Warrants(Some(Diff(oldRates, newRates)))
  {
  }

  /** The threshold is inclusive: a rise of exactly 5 points posts, one just below does not. */
  lemma ThresholdInclusive()
    ensures Warrants(Some(Diff(map["1d" := 35.0], map["1d" := 40.0])))
    ensures !Warrants(Some(Diff(map["1d" := 35.0], map["1d" := 39.99])))
  {
  }

  /** The self-test's `changes_big`: a 5.5-point rise on 1d and small rises elsewhere. */
  const ChangesBig: ChangeSet := map[
    "1d" := Move(35.0, 40.5, 5.5, 15.71, true), "2d" := Move(36.0, 36.2, 0.2, 0.56, true),
    "3d" := Move(36.5, 36.8, 0.3, 0.82, true), "7d" := Move(37.0, 37.5, 0.5, 1.35, true)]

  /** The change dicts of the bot's own self-test with the verdicts it asserts, and the empty dict that `should_tweet`'s guard rejects. */
  lemma SelfTestVectors()
    ensures Warrants(Some(ChangesBig))
    ensures !Warrants(Some(map[
      "1d" := Move(35.0, 37.0, 2.0, 5.71, true), "2d" := Move(36.0, 36.2, 0.2, 0.56, true),
      "3d" := Move(36.5, 36.8, 0.3, 0.82, true), "7d" := Move(37.0, 37.5, 0.5, 1.35, true)]))
    ensures !Warrants(Some(map[
      "1d" := Move(40.0, 34.0, -6.0, -15.0, true), "2d" := Move(36.0, 36.0, 0.0, 0.0, false),
      "3d" := Move(36.5, 36.5, 0.0, 0.0, false), "7d" := Move(37.0, 37.0, 0.0, 0.0, false)]))
    ensures !Warrants(None)
    ensures !Warrants(Some(map[]))
  {
    assert ChangesBig["1d"].changed && ChangesBig["1d"].absolute >= TweetThreshold;
  }

  /** The simulated flow: 18 to 25 on 1d is a 7-point rise and is posted. */
  lemma SimulatedFlowPosts()
    ensures Warrants(Some(Diff(map["1d" := 18.0, "2d" := 20.0, "3d" := 22.0, "7d" := 24.0],
                               map["1d" := 25.0, "2d" := 21.0, "3d" := 22.5, "7d" := 24.5])))
  {
  }

  // ---------------------------------------------------------------------------
  // format_tweet

  const Bell: string := "\U{1F514}"
  const Chart: string := "\U{1F4CA}"
  const UpArrow: string := "\U{1F4C8}"
  const DownArrow: string := "\U{1F4C9}"
  const Clock1: string := "\U{1F550}"
  const Clock2: string := "\U{1F551}"
  const Clock3: string := "\U{1F552}"

  /** The two heading lines every post starts with. */
  const Title: string := Bell + " \U{A1}Cambio en las tasas!\n\n"
  const Caption: string := Chart + " TASAS DE CAUCIONES\n\n"
  const Header: string := Title + Caption

  /** The tenors and their clock labels, in the order the post lists them (7d reuses the 3d clock). */
  const Layout: seq<(string, string)> := [("1d", Clock1), ("2d", Clock2), ("3d", Clock3), ("7d", Clock3)]

  function UpperChar(c: char): char
  {
    if 'a' <= c <= 'z' then (c as int - 'a' as int + 'A' as int) as char else c
  }

  /** `str.upper()` on the ASCII tenor names. */
  function Upper(s: string): (u: string)
    ensures |u| == |s|
  {
    if s == [] then [] else [UpperChar(s[0])] + Upper(s[1..])
  }

  /** Text a number formatter can produce: digits, a point and a minus sign. */
  predicate Numeric(s: string)
  {
    forall i :: 0 <= i < |s| ==> s[i] in "0123456789.-"
  }

  /** The change annotation of a changed tenor: direction marker, signed point delta and signed relative delta. */
  function Annotation(c: RateChange, fmt: real -> string): string
  {
    var arrow := if c.absolute > 0.0 then UpArrow else DownArrow;
    var sign := if c.absolute > 0.0 then "+" else "";
    " " + arrow + " " + sign + fmt(c.absolute) + "% (" + sign + fmt(c.percentage) + "%)"
  }

  /** The annotation this tenor gets: none unless the change dict marks it changed. */
  function AnnotationFor(period: string, changes: Option<ChangeSet>, fmt: real -> string): string
  {
    if changes.Some? && period in changes.value && changes.value[period].changed
    then Annotation(changes.value[period], fmt)
    else ""
  }

  /** The fixed part of a tenor's line: clock, upper-cased name and formatted rate. */
  function Stem(period: string, clock: string, rate: real, fmt: real -> string): string
  {
    clock + " " + Upper(period) + ": " + fmt(rate) + "% TNA"
  }

  /** One tenor's line of the post. */
  function Line(period: string, clock: string, rate: real, changes: Option<ChangeSet>, fmt: real -> string): string
  {
    Stem(period, clock, rate, fmt) + AnnotationFor(period, changes, fmt) + "\n"
  }

  /** The lines for `layout`, or the `KeyError` of its first tenor missing from `rates`. */
  function Body(layout: seq<(string, string)>, rates: map<string, real>, changes: Option<ChangeSet>,
                fmt: real -> string): (r: Result<string, KeyError>)
    ensures r.Failure? ==> exists k :: 0 <= k < |layout| && layout[k].0 == r.error.key && r.error.key !in rates
  {
    if layout == [] then Success("")
    else
      var last := layout[|layout| - 1];
      match Body(layout[..|layout| - 1], rates, changes, fmt)
      case Failure(e) => Failure(e)
      case Success(b) =>
        if last.0 !in rates then Failure(KeyError(last.0))
        else Success(b + Line(last.0, last.1, rates[last.0], changes, fmt))
  }

  /** The closing line with the snapshot's time stamp. */
  function Footer(timestamp: string): string
  {
    "\n" + Clock3 + " Actualizado: " + timestamp
  }

  /** What `format_tweet(rates, changes)` returns, or the `KeyError` it raises. */
  function TweetText(rates: Rates, changes: Option<ChangeSet>, fmt: real -> string): (r: Result<string, KeyError>)
    ensures r.Success? ==> |Header| <= |r.value| && r.value[..|Header|] == Header
    ensures r.Failure? ==> (r.error.key in Periods && r.error.key !in rates.values)
                           || (r.error.key == "timestamp" && rates.timestamp.None?)
  {
    match Body(Layout, rates.values, changes, fmt)
    case Failure(e) => Failure(e)
    case Success(b) =>
      if rates.timestamp.None? then Failure(KeyError("timestamp"))
      else Success(Header + b + Footer(rates.timestamp.value))
  }

  /** `format_tweet`: grows the message one tenor line at a time. */
  method FormatTweet(rates: Rates, changes: Option<ChangeSet>, fmt: real -> string)
    returns (r: Result<string, KeyError>)
    ensures r == TweetText(rates, changes, fmt)
  {
    var message := Title;
    message := message + Caption;
    assert message == Header + "";
    for i := 0 to |Layout|
      invariant Body(Layout[..i], rates.values, changes, fmt).Success?
      invariant message == Header + Body(Layout[..i], rates.values, changes, fmt).value
    {
      var (period, clock) := Layout[i];
      if period !in rates.values {
        BodyStep(Layout, i, rates.values, changes, fmt);
        BodyFailurePersists(Layout, i + 1, rates.values, changes, fmt);
        return Failure(KeyError(period));
      }
      ghost var body := Body(Layout[..i], rates.values, changes, fmt).value;
      var rate := rates.values[period];
      message := message + (clock + " " + Upper(period) + ": " + fmt(rate) + "% TNA");
      ghost var stemmed := message;
      if changes.Some? && period in changes.value && changes.value[period].changed {
        var change := changes.value[period];
        var arrow := if change.absolute > 0.0 then UpArrow else DownArrow;
        var sign := if change.absolute > 0.0 then "+" else "";
        message := message + (" " + arrow + " " + sign + fmt(change.absolute) + "% (" + sign + fmt(change.percentage) + "%)");
      }
      assert message == stemmed + AnnotationFor(period, changes, fmt);
      message := message + "\n";
      AppendLine(Header, body, Stem(period, clock, rate, fmt), AnnotationFor(period, changes, fmt));
      BodyStep(Layout, i, rates.values, changes, fmt);
    }
    assert Layout[..|Layout|] == Layout;
    if rates.timestamp.None? {
      return Failure(KeyError("timestamp"));
    }
    message := message + ("\n" + Clock3 + " Actualizado: " + rates.timestamp.value);
    return Success(message);
  }

  /** One more layout entry adds its line, or raises for its tenor. */
  lemma BodyStep(layout: seq<(string, string)>, i: nat, rates: map<string, real>,
                 changes: Option<ChangeSet>, fmt: real -> string)
    requires i < |layout|
    requires Body(layout[..i], rates, changes, fmt).Success?
    ensures Body(layout[..i + 1], rates, changes, fmt) ==
              if layout[i].0 !in rates then Failure(KeyError(layout[i].0))
              else Success(Body(layout[..i], rates, changes, fmt).value +
                           Line(layout[i].0, layout[i].1, rates[layout[i].0], changes, fmt))
  {
    assert layout[..i + 1][..i] == layout[..i];
  }

  /** Appending a line piece by piece builds the same text as appending it whole. */
  lemma AppendLine(header: string, body: string, stem: string, annotation: string)
    ensures header + body + stem + annotation + "\n" == header + (body + (stem + annotation + "\n"))
  {
  }

  /** Once a prefix of the layout has raised, the whole layout raises the same `KeyError`. */
  lemma {:induction false} BodyFailurePersists(layout: seq<(string, string)>, j: nat, rates: map<string, real>,
                                                changes: Option<ChangeSet>, fmt: real -> string)
    requires j <= |layout|
    requires Body(layout[..j], rates, changes, fmt).Failure?
    ensures Body(layout, rates, changes, fmt) == Body(layout[..j], rates, changes, fmt)
  {
    if j < |layout| {
      var init := layout[..|layout| - 1];
      assert init[..j] == layout[..j];
      BodyFailurePersists(init, j, rates, changes, fmt);
    } else {
      assert layout[..j] == layout;
    }
  }

  /** With all four tenors and a time stamp present, the post is the heading, one line per tenor in the order 1d, 2d, 3d, 7d, and the footer. */
  lemma {:induction false} TweetListsTenorsInOrder(rates: Rates, changes: Option<ChangeSet>, fmt: real -> string)
    requires forall p :: p in Periods ==> p in rates.values
    requires rates.timestamp.Some?
    ensures TweetText(rates, changes, fmt) == Success(
      Header +
      Line("1d", Clock1, rates.values["1d"], changes, fmt) +
      Line("2d", Clock2, rates.values["2d"], changes, fmt) +
      Line("3d", Clock3, rates.values["3d"], changes, fmt) +
      Line("7d", Clock3, rates.values["7d"], changes, fmt) +
      Footer(rates.timestamp.value))
  {
    var v := rates.values;
    assert "1d" in v && "2d" in v && "3d" in v && "7d" in v;
    FullBody(v, changes, fmt);
    ConcatAssoc(Header, Line("1d", Clock1, v["1d"], changes, fmt), Line("2d", Clock2, v["2d"], changes, fmt),
                Line("3d", Clock3, v["3d"], changes, fmt), Line("7d", Clock3, v["7d"], changes, fmt),
                Footer(rates.timestamp.value));
  }

  /** The four tenor lines in layout order, when every tenor has a rate. */
  lemma FullBody(v: map<string, real>, changes: Option<ChangeSet>, fmt: real -> string)
    requires "1d" in v && "2d" in v && "3d" in v && "7d" in v
    ensures Body(Layout, v, changes, fmt) == Success(
      Line("1d", Clock1, v["1d"], changes, fmt) + Line("2d", Clock2, v["2d"], changes, fmt) +
      Line("3d", Clock3, v["3d"], changes, fmt) + Line("7d", Clock3, v["7d"], changes, fmt))
  {
    assert Layout[..0] == [];
    BodyStep(Layout, 0, v, changes, fmt);
    assert "" + Line("1d", Clock1, v["1d"], changes, fmt) == Line("1d", Clock1, v["1d"], changes, fmt);
    BodyStep(Layout, 1, v, changes, fmt);
    BodyStep(Layout, 2, v, changes, fmt);
    BodyStep(Layout, 3, v, changes, fmt);
    assert Layout[..4] == Layout;
  }

  lemma ConcatAssoc(a: string, b: string, c: string, d: string, e: string, f: string)
    ensures a + (b + c + d + e) + f == a + b + c + d + e + f
  {
  }

  /** `s` holds `t` as a contiguous piece. */
  predicate Contains(s: string, t: string)
  {
    exists i, j :: 0 <= i <= j <= |s| && s[i..j] == t
  }

  lemma ContainsTail(a: string, b: string, c: string)
    ensures Contains(a + b + c, b + c)
  {
    assert (a + b + c)[|a|..|a + b + c|] == b + c;
  }

  lemma ContainsPrepend(u: string, s: string, t: string)
    requires Contains(s, t)
    ensures Contains(u + s, t)
  {
    var i, j :| 0 <= i <= j <= |s| && s[i..j] == t;
    assert (u + s)[|u| + i..|u| + j] == s[i..j];
  }

  lemma ContainsAppend(s: string, u: string, t: string)
    requires Contains(s, t)
    ensures Contains(s + u, t)
  {
    var i, j :| 0 <= i <= j <= |s| && s[i..j] == t;
    assert (s + u)[i..j] == s[i..j];
  }

  /**
   * The self-test's post for `changes_big`: it is produced, carries the bell
   * and the up marker, and shows the 1d rate as the formatted 40.50 followed
   * by "% TNA".
   */
  lemma SelfTestPost(timestamp: string, fmt: real -> string)
    ensures var rates := Rates(map["1d" := 40.5, "2d" := 36.2, "3d" := 36.8, "7d" := 37.5], Some(timestamp));
            var post := TweetText(rates, Some(ChangesBig), fmt);
            && post.Success?
            && Bell[0] in post.value
            && UpArrow[0] in post.value
            && Contains(post.value, fmt(40.5) + "% TNA")
  {
    var rates := Rates(map["1d" := 40.5, "2d" := 36.2, "3d" := 36.8, "7d" := 37.5], Some(timestamp));
    var changes := Some(ChangesBig);
    var v := rates.values;
    TweetListsTenorsInOrder(rates, changes, fmt);
    var x1 := Line("1d", Clock1, v["1d"], changes, fmt);
    var x2 := Line("2d", Clock2, v["2d"], changes, fmt);
    var x3 := Line("3d", Clock3, v["3d"], changes, fmt);
    var x4 := Line("7d", Clock3, v["7d"], changes, fmt);
    var footer := Footer(timestamp);
    var post := Header + x1 + x2 + x3 + x4 + footer;
    assert TweetText(rates, changes, fmt).value == post;
    assert Bell[0] in Title;
    var ann := AnnotationFor("1d", changes, fmt);
    assert ann == Annotation(ChangesBig["1d"], fmt);
    assert UpArrow[0] in ann;
    var piece := fmt(40.5) + "% TNA";
    var stem := Stem("1d", Clock1, v["1d"], fmt);
    ContainsTail(Clock1 + " " + Upper("1d") + ": ", fmt(40.5), "% TNA");
    ContainsAppend(stem, ann, piece);
    ContainsAppend(stem + ann, "\n", piece);
    ContainsPrepend(Header, x1, piece);
    ContainsAppend(Header + x1, x2, piece);
    ContainsAppend(Header + x1 + x2, x3, piece);
    ContainsAppend(Header + x1 + x2 + x3, x4, piece);
    ContainsAppend(Header + x1 + x2 + x3 + x4, footer, piece);
  }

  /** `format_tweet` raises exactly when a tenor or the time stamp is missing from `rates`. */
  lemma {:induction false} TweetFailsIffKeyMissing(rates: Rates, changes: Option<ChangeSet>, fmt: real -> string)
    ensures TweetText(rates, changes, fmt).Failure? <==>
              rates.timestamp.None? || exists p :: p in Periods && p !in rates.values
  {
    BodyFailsIffKeyMissing(Layout, rates.values, changes, fmt);
    assert forall k :: 0 <= k < |Layout| ==> Layout[k].0 == Periods[k];
    if exists p :: p in Periods && p !in rates.values {
      var p :| p in Periods && p !in rates.values;
      var k :| 0 <= k < |Periods| && Periods[k] == p;
      assert Layout[k].0 !in rates.values;
    }
  }

  lemma {:induction false} BodyFailsIffKeyMissing(layout: seq<(string, string)>, rates: map<string, real>,
                                                    changes: Option<ChangeSet>, fmt: real -> string)
    ensures Body(layout, rates, changes, fmt).Failure? <==>
              exists k :: 0 <= k < |layout| && layout[k].0 !in rates
  {
    if layout != [] {
      var init := layout[..|layout| - 1];
      BodyFailsIffKeyMissing(init, rates, changes, fmt);
      assert forall k :: 0 <= k < |init| ==> init[k] == layout[k];
    }
  }

  /**
   * A tenor's line carries markers exactly as its change says: the up marker and a
   * "+" appear iff the tenor is changed and rose, the down marker iff it is changed
   * and did not rise, and an unchanged tenor's line is its stem alone.
   */
  lemma LineMarkers(k: nat, rate: real, changes: Option<ChangeSet>, fmt: real -> string)
    requires k < |Layout|
    requires Numeric(fmt(rate))
    requires changes.Some? && Layout[k].0 in changes.value ==>
               Numeric(fmt(changes.value[Layout[k].0].absolute)) &&
               Numeric(fmt(changes.value[Layout[k].0].percentage))
    ensures var (p, clock) := Layout[k];
            var changed := changes.Some? && p in changes.value && changes.value[p].changed;
            var rose := changed && changes.value[p].absolute > 0.0;
            && (!changed ==> Line(p, clock, rate, changes, fmt) == Stem(p, clock, rate, fmt) + "\n")
            && (UpArrow[0] in Line(p, clock, rate, changes, fmt) <==> rose)
            && ('+' in Line(p, clock, rate, changes, fmt) <==> rose)
            && (DownArrow[0] in Line(p, clock, rate, changes, fmt) <==> changed && !rose)
  {
    var (p, clock) := Layout[k];
    var stem := Stem(p, clock, rate, fmt);
    assert Upper(p) == [p[0], UpperChar(p[1])];
    NumericHasNoMarker(fmt(rate));
    assert UpArrow[0] !in stem && DownArrow[0] !in stem && '+' !in stem;
    if changes.Some? && p in changes.value && changes.value[p].changed {
      var c := changes.value[p];
      NumericHasNoMarker(fmt(c.absolute));
      NumericHasNoMarker(fmt(c.percentage));
    }
  }

  lemma NumericHasNoMarker(s: string)
    requires Numeric(s)
    ensures UpArrow[0] !in s && DownArrow[0] !in s && '+' !in s
  {
  }
}
