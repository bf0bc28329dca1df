/**
 * The colored console encoder (encoder.go): it takes the line the base
 * console encoder produced, re-renders the last tab-separated segment (the
 * JSON object of fields) as `{"k": "v", ...}` with the value of `error` in
 * red, and rejoins the segments. Also the encoder selection on `pretty`.
 */
module Encoding {
  import Go
  import Zap
  import Options
  import Strings

  /** ANSI escape sequences for red text and for resetting the colour. */
  const Red: string := "\U{1B}[31m"
  const Reset: string := "\U{1B}[0m"
  const Escape: char := '\U{1B}'

  /** The separator of the base console layout. */
  const Tab: char := '\t'

  /** One entry of the parsed object; `shown` is the value as fmt's %v prints it. */
  datatype Pair = Pair(key: string, shown: string)

  /**
   * The result of json.Unmarshal of a segment into a map: a failure, or the
   * map's entries in the order Go's map iteration happened to visit them.
   */
  datatype Parsed = Invalid | Object(pairs: seq<Pair>)

  /** `t` occurs in `s` starting at index `k`. */
  ghost predicate OccursAt(s: string, t: string, k: int) {
    0 <= k && k + |t| <= |s| && s[k..k + |t|] == t
  }

  /** `t` occurs in `s`. */
  ghost predicate Contains(s: string, t: string) {
    exists k :: OccursAt(s, t, k)
  }

  /** The value as rendered inside its quotes: red for `error`, plain otherwise. */
  function Colour(p: Pair): string {
    if p.key == "error" then Red + p.shown + Reset else p.shown
  }

  /** One entry: `"k": "v"`. */
  function RenderPair(p: Pair): string {
    "\"" + p.key + "\": \"" + Colour(p) + "\""
  }

  /** The `error` value is framed by the red and reset sequences; any other value is left as it is. */
  lemma ColourLayout(p: Pair)
    ensures p.key != "error" ==> Colour(p) == p.shown
    ensures p.key == "error" ==>
      var r := Colour(p);
      && |r| == |Red| + |p.shown| + |Reset|
      && r[..|Red|] == Red && r[|Red|..|r| - |Reset|] == p.shown && r[|r| - |Reset|..] == Reset
  {
  }

  /** An entry is the quoted key, `: `, and the quoted (coloured) value. */
  lemma RenderPairLayout(p: Pair)
    ensures var r := RenderPair(p);
      && |r| == |p.key| + |Colour(p)| + 6
      && r[0] == '"' && r[1..1 + |p.key|] == p.key && r[1 + |p.key|..5 + |p.key|] == "\": \""
      && r[5 + |p.key|..|r| - 1] == Colour(p) && r[|r| - 1] == '"'
  {
  }

  /** The entries rendered in order with `, ` between neighbours. */
  function Joined(ps: seq<Pair>): (r: string)
    ensures r == "" <==> |ps| == 0
    ensures |ps| >= 1 ==> RenderPair(ps[0]) <= r
  {
    if |ps| == 0 then ""
    else if |ps| == 1 then RenderPair(ps[0])
    else Joined(ps[..|ps| - 1]) + ", " + RenderPair(ps[|ps| - 1])
  }

  /** The rebuilt last segment. */
  function FieldSegment(ps: seq<Pair>): (r: string)
    ensures |r| >= 3 && r[0] == '{' && r[|r| - 2..] == "}\n"
    ensures ps == [] ==> r == "{}\n"
  {
    "{" + Joined(ps) + "}\n"
  }

  /** The last tab-separated segment of a line: the one that is parsed. */
  function LastSegment(line: string): string {
    var fds := Strings.Split(line, Tab);
    fds[|fds| - 1]
  }

  /**
   * What EncodeEntry returns for a base line whose last segment parsed to
   * `parsed`: the line itself on a parse failure, otherwise the segments
   * with the last one replaced, rejoined with tabs.
   */
  function Recoloured(line: string, parsed: Parsed): (out: string)
    ensures parsed.Invalid? ==> out == line
  {
    match parsed
    case Invalid => line
    case Object(ps) =>
      var fds := Strings.Split(line, Tab);
      Strings.Join(fds[..|fds| - 1] + [FieldSegment(ps)], Tab)
  }

  /**
   * coloredConsoleEncoder.EncodeEntry on the base encoder's output `line`
   * (the base encoder's error is dropped, as in the source); `unmarshal` is
   * json.Unmarshal into a map. The error result is always nil.
   */
  method EncodeEntry(line: string, unmarshal: string -> Parsed) returns (buf: string, err: Go.Nullable<Go.Error>)
    ensures err.Nil?
    ensures buf == Recoloured(line, unmarshal(LastSegment(line)))
  {
    var fds := Strings.Split(line, Tab);
    // Split never yields zero segments, so the source's early return for that case cannot run.
    var lastIdx := |fds| - 1;
    var fieldData := fds[lastIdx];
    var parsed := unmarshal(fieldData);
    if parsed.Invalid? {
      return line, Go.Nil;
    }
    var ps := parsed.pairs;
    var i := 0;
    var result := "{";
    while i < |ps|
      invariant 0 <= i <= |ps|
      invariant result == Progress(ps, i)
    {
      result := result + RenderPair(ps[i]);
      if i < |ps| - 1 {
        result := result + ", ";
      }
      i := i + 1;
    }
    result := result + "}\n";
    ProgressFraming(ps);
    ghost var before := fds;
    fds := fds[lastIdx := result];
    ReplaceLast(before, result);
    buf := Strings.Join(fds, Tab);
    err := Go.Nil;
  }

  /** What the loop holds after its first i rounds: the opening brace, then i entries, each but the last followed by `, `. */
  function Progress(ps: seq<Pair>, i: nat): string
    requires i <= |ps|
  {
    if i == 0 then "{"
    else Progress(ps, i - 1) + RenderPair(ps[i - 1]) + (if i - 1 < |ps| - 1 then ", " else "")
  }

  /** After i rounds the loop holds the first i entries joined, plus a separator if more follow. */
  lemma {:induction false} ProgressComplete(ps: seq<Pair>, i: nat)
    requires i <= |ps|
    ensures Progress(ps, i) == "{" + Joined(ps[..i]) + (if 0 < i < |ps| then ", " else "")
  {
    if i == 1 {
      assert ps[..1] == [ps[0]];
      assert Progress(ps, 0) == "{";
    } else if i > 1 {
      ProgressComplete(ps, i - 1);
      JoinedSnoc(ps, i - 1);
      var prev := Joined(ps[..i - 1]);
      var entry := RenderPair(ps[i - 1]);
      Associative("{", prev, ", ");
      Associative("{", prev + ", ", entry);
    }
  }

  /** Concatenation is associative. */
  lemma Associative(a: string, b: string, c: string)
    ensures (a + b) + c == a + (b + c)
  {
  }

  /** The finished loop framed by the braces is the rebuilt segment. */
  lemma ProgressFraming(ps: seq<Pair>)
    ensures Progress(ps, |ps|) + "}\n" == FieldSegment(ps)
  {
    ProgressComplete(ps, |ps|);
    assert ps[..|ps|] == ps;
    var inner := "{" + Joined(ps);
    assert Progress(ps, |ps|) == inner + "";
  }

  /** Overwriting the last element is dropping it and appending the new one. */
  lemma ReplaceLast<T>(xs: seq<T>, x: T)
    requires |xs| >= 1
    ensures xs[|xs| - 1 := x] == xs[..|xs| - 1] + [x]
  {
  }

  /** newEncoder(opt) of encoder.go: the colored console encoder when pretty, JSON otherwise. */
  function NewEncoder(opt: Options.Option): (e: Zap.Encoder)
    ensures e.ColoredConsole? <==> opt.pretty
    ensures e.ColoredConsole? ==> e.base.ConsoleEncoder? && e.base.config.encodeLevel == Zap.CapitalColorLevelEncoder
    ensures !e.ColoredConsole? ==> e.JSONEncoder? && e.config.encodeLevel == Zap.CapitalLevelEncoder
    ensures (if e.ColoredConsole? then e.base.config else e.config).encodeTime == Zap.ISO8601TimeEncoder
  {
    var cfg := Zap.EncoderConfig(Zap.ISO8601TimeEncoder, Zap.CapitalLevelEncoder);
    if opt.pretty then
      Zap.ColoredConsole(Zap.ConsoleEncoder(cfg.(encodeLevel := Zap.CapitalColorLevelEncoder)))
    else
      Zap.JSONEncoder(cfg)
  }

  /** The zero-argument newEncoder of option.go is this one with pretty off. */
  lemma PlainEncoderIsNotPretty(opt: Options.Option)
    requires !opt.pretty
    ensures Options.NewEncoder() == NewEncoder(opt)
  {
  }

  // ---------------------------------------------------------------------
  // Properties of the rebuilt segment.

  /** One loop step: the first i + 1 entries joined are the first i joined, a separator, and entry i. */
  lemma JoinedSnoc(ps: seq<Pair>, i: nat)
    requires i < |ps|
    ensures Joined(ps[..i + 1]) == (if i == 0 then "" else Joined(ps[..i]) + ", ") + RenderPair(ps[i])
  {
    assert ps[..i + 1][..i] == ps[..i];
  }

  /** The sum of the lengths of the rendered entries. */
  function RenderedLength(ps: seq<Pair>): nat {
    if |ps| == 0 then 0 else RenderedLength(ps[..|ps| - 1]) + |RenderPair(ps[|ps| - 1])|
  }

  /** Exactly n - 1 two-character separators between n rendered entries: no trailing one. */
  lemma {:induction false} JoinedLength(ps: seq<Pair>)
    requires |ps| >= 1
    ensures |Joined(ps)| == RenderedLength(ps) + 2 * (|ps| - 1)
    decreases |ps|
  {
    if |ps| > 1 {
      JoinedLength(ps[..|ps| - 1]);
      assert ps[..|ps| - 1][..|ps| - 2] == ps[..|ps| - 2];
    } else {
      assert ps[..0] == [];
    }
  }

  /** The joined entries end with the last entry, not with a separator. */
  lemma JoinedEndsWithLastEntry(ps: seq<Pair>)
    requires |ps| >= 1
    ensures var j := Joined(ps); var last := RenderPair(ps[|ps| - 1]);
      |last| <= |j| && j[|j| - |last|..] == last
  {
  }

  /** Every entry's rendering occurs in the joined entries. */
  lemma {:induction false} JoinedContainsEntry(ps: seq<Pair>, j: nat)
    requires j < |ps|
    ensures Contains(Joined(ps), RenderPair(ps[j]))
    decreases |ps|
  {
    var s := Joined(ps);
    var t := RenderPair(ps[j]);
    if |ps| == 1 {
      assert OccursAt(s, t, 0);
    } else if j == |ps| - 1 {
      assert OccursAt(s, t, |s| - |t|);
    } else {
      var init := ps[..|ps| - 1];
      assert init[j] == ps[j];
      JoinedContainsEntry(init, j);
      var k :| OccursAt(Joined(init), t, k);
      OccursInPrefix(Joined(init), ", " + RenderPair(ps[|ps| - 1]), t, k);
      Associative(Joined(init), ", ", RenderPair(ps[|ps| - 1]));
    }
  }

  /** An occurrence in a string is an occurrence in any extension of it. */
  lemma OccursInPrefix(a: string, b: string, t: string, k: int)
    requires OccursAt(a, t, k)
    ensures OccursAt(a + b, t, k)
  {
  }

  /** The value of `error` appears between the red and reset escapes. */
  lemma ErrorEntryIsRed(p: Pair)
    requires p.key == "error"
    ensures Contains(RenderPair(p), Red + p.shown + Reset)
  {
    var r := RenderPair(p);
    var t := Red + p.shown + Reset;
    var k := |"\"error\": \""|;
    assert r == "\"error\": \"" + t + "\"";
    assert r[k..k + |t|] == t;
    assert OccursAt(r, t, k);
  }

  /** Any other entry gets no escape character that its key or value did not already have. */
  lemma OtherEntryIsPlain(p: Pair)
    requires p.key != "error"
    ensures Escape in RenderPair(p) ==> Escape in p.key || Escape in p.shown
  {
  }

  /** A substring of a substring is a substring. */
  lemma ContainsTransitive(s: string, m: string, t: string)
    requires Contains(s, m) && Contains(m, t)
    ensures Contains(s, t)
  {
    var a :| OccursAt(s, m, a);
    var b :| OccursAt(m, t, b);
    forall x | 0 <= x < |t| ensures s[a + b + x] == t[x] {
      assert m[b + x] == t[x];
      assert s[a + (b + x)] == m[b + x];
    }
    assert s[a + b..a + b + |t|] == t;
    assert OccursAt(s, t, a + b);
  }

  /** Joining a prefix of segments and one more segment. */
  lemma {:induction false} JoinSnoc(prefix: seq<string>, x: string)
    ensures Strings.Join(prefix + [x], Tab) ==
            (if |prefix| == 0 then "" else Strings.Join(prefix, Tab) + [Tab]) + x
    decreases |prefix|
  {
    if |prefix| > 0 {
      assert (prefix + [x])[1..] == prefix[1..] + [x];
      JoinSnoc(prefix[1..], x);
      if |prefix| == 1 {
        assert prefix[1..] == [];
      }
    }
  }

  // ---------------------------------------------------------------------
  // Properties of the whole line.

  /**
   * On a successful parse only the last segment changes: the output is the
   * line up to and including its last tab, followed by the rebuilt segment.
   */
  lemma RecolouredReplacesLastSegment(line: string, ps: seq<Pair>)
    ensures var last := LastSegment(line);
      |last| <= |line| && line[|line| - |last|..] == last &&
      Recoloured(line, Object(ps)) == line[..|line| - |last|] + FieldSegment(ps)
  {
    var fds := Strings.Split(line, Tab);
    var n := |fds|;
    var init := fds[..n - 1];
    var head := if |init| == 0 then "" else Strings.Join(init, Tab) + [Tab];
    Strings.JoinSplit(line, Tab);
    assert fds == init + [fds[n - 1]];
    JoinSnoc(init, fds[n - 1]);
    JoinSnoc(init, FieldSegment(ps));
    assert line == head + fds[n - 1];
    assert line[..|line| - |fds[n - 1]|] == head;
  }

  /**
   * A tab-free rebuilt segment splits off again: the segments of the output
   * are the segments of the input with the last one replaced.
   */
  lemma RecolouredSegments(line: string, ps: seq<Pair>)
    requires Tab !in FieldSegment(ps)
    ensures var fds := Strings.Split(line, Tab);
      Strings.Split(Recoloured(line, Object(ps)), Tab) == fds[..|fds| - 1] + [FieldSegment(ps)]
  {
    var fds := Strings.Split(line, Tab);
    var segs := fds[..|fds| - 1] + [FieldSegment(ps)];
    assert forall i :: 0 <= i < |segs| ==> Tab !in segs[i] by {
      forall i | 0 <= i < |segs| ensures Tab !in segs[i] {
        if i < |fds| - 1 {
          assert segs[i] == fds[i];
        }
      }
    }
    Strings.SplitJoin(segs, Tab);
  }

  /** A line without a tab is one segment, parsed and rebuilt as a whole. */
  lemma TablessLineIsAllFields(line: string, ps: seq<Pair>)
    requires Tab !in line
    ensures LastSegment(line) == line
    ensures Recoloured(line, Object(ps)) == FieldSegment(ps)
  {
    Strings.SplitNoSeparator(line, Tab);
  }

  /** An `error` entry shows up in the output line wrapped in red and reset. */
  lemma RecolouredHighlightsError(line: string, ps: seq<Pair>, j: nat)
    requires j < |ps| && ps[j].key == "error"
    ensures Contains(Recoloured(line, Object(ps)), Red + ps[j].shown + Reset)
  {
    var out := Recoloured(line, Object(ps));
    var seg := FieldSegment(ps);
    var last := LastSegment(line);
    RecolouredReplacesLastSegment(line, ps);
    var pre := line[..|line| - |last|];
    assert out == pre + seg;
    assert out[|pre|..|pre| + |seg|] == seg;
    assert OccursAt(out, seg, |pre|);
    JoinedContainsEntry(ps, j);
    assert seg[1..1 + |Joined(ps)|] == Joined(ps);
    assert OccursAt(seg, Joined(ps), 1);
    ContainsTransitive(seg, Joined(ps), RenderPair(ps[j]));
    ContainsTransitive(out, seg, RenderPair(ps[j]));
    ErrorEntryIsRed(ps[j]);
    ContainsTransitive(out, RenderPair(ps[j]), Red + ps[j].shown + Reset);
  }
}
