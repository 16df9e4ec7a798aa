/** The stored reason text: the reason headings joined with " | ", and the dashboard's
    way of reading it back (split on '|', trim each piece). */
module Report {
  import opened Verdict

  /** The heading each reason text starts with; the figures that follow it in
      parentheses are not rendered here. */
  function Heading(r: Reason): string {
    match r
    case WeakMoat(_, _) => "WEAK MOAT"
    case UnstableMoat(_) => "UNSTABLE MOAT"
    case WeakEngine(_) => "WEAK ENGINE"
    case UnstableEngine(_) => "UNSTABLE ENGINE"
    case HighDebt(_) => "HIGH DEBT"
    case Expensive(_) => "EXPENSIVE"
    case PoorCashQuality => "POOR CASH QUALITY"
  }

  function Headings(rs: seq<Reason>): (hs: seq<string>)
    ensures |hs| == |rs|
    ensures forall i :: 0 <= i < |rs| ==> hs[i] == Heading(rs[i])
  {
    if rs == [] then [] else [Heading(rs[0])] + Headings(rs[1..])
  }

  /** ' | '.join(parts). */
  function Join(parts: seq<string>): string {
    if |parts| == 0 then ""
    else if |parts| == 1 then parts[0]
    else parts[0] + " | " + Join(parts[1..])
  }

  /** The text saved with the verdict: "BUFFETT ELITE" for a survivor, else the joined reasons. */
  function ReasonText(rs: seq<Reason>): (t: string)
    ensures rs == [] ==> t == "BUFFETT ELITE"
  {
    if rs == [] then "BUFFETT ELITE" else Join(Headings(rs))
  }

  /** explode('|', s). */
  function Explode(s: string): (pieces: seq<string>)
    ensures |pieces| >= 1
  {
    if |s| == 0 then [""]
    else
      var rest := Explode(s[1..]);
      if s[0] == '|' then [""] + rest else [[s[0]] + rest[0]] + rest[1..]
  }

  /** The characters PHP's trim() strips. */
  predicate IsBlank(c: char) {
    c == ' ' || c == '\t' || c == '\n' || c == '\r' || c == '\0' || c == '\U{B}'
  }

  function TrimLeft(s: string): string {
    if |s| > 0 && IsBlank(s[0]) then TrimLeft(s[1..]) else s
  }

  function TrimRight(s: string): string {
    if |s| > 0 && IsBlank(s[|s| - 1]) then TrimRight(s[..|s| - 1]) else s
  }

  function Trim(s: string): string {
    TrimLeft(TrimRight(s))
  }

  function TrimAll(ss: seq<string>): (ts: seq<string>)
    ensures |ts| == |ss|
  {
    if ss == [] then [] else [Trim(ss[0])] + TrimAll(ss[1..])
  }

  /** A piece that survives the round trip: no '|' and no blank at either end. */
  predicate Plain(p: string) {
    |p| > 0 && !IsBlank(p[0]) && !IsBlank(p[|p| - 1]) && '|' !in p
  }

  lemma {:induction false} ExplodePlain(a: string)
    requires '|' !in a
    ensures Explode(a) == [a]
  {
    if |a| > 0 {
      ExplodePlain(a[1..]);
      assert [a[0]] + a[1..] == a;
    }
  }

  lemma {:induction false} ExplodeAfterBar(a: string, b: string)
    requires '|' !in a
    ensures Explode(a + "|" + b) == [a] + Explode(b)
  {
    if |a| == 0 {
      assert a + "|" + b == "|" + b;
      assert ("|" + b)[1..] == b;
    } else {
      ExplodeAfterBar(a[1..], b);
      assert (a + "|" + b)[1..] == a[1..] + "|" + b;
      assert [a[0]] + a[1..] == a;
    }
  }

  /** A character in front changes only the first piece. */
  lemma ExplodeCons(c: char, s: string)
    requires c != '|'
    ensures Explode([c] + s) == [[c] + Explode(s)[0]] + Explode(s)[1..]
  {
    assert ([c] + s)[1..] == s;
  }

  lemma {:induction false} TrimRightCons(c: char, s: string)
    ensures TrimRight(s) != "" ==> TrimRight([c] + s) == [c] + TrimRight(s)
    ensures TrimRight(s) == "" ==> TrimRight([c] + s) == (if IsBlank(c) then "" else [c])
  {
    var t := [c] + s;
    if |s| == 0 {
      assert t == [c];
      if IsBlank(c) {
        assert t[..|t| - 1] == [];
      }
    } else if IsBlank(s[|s| - 1]) {
      assert t[..|t| - 1] == [c] + s[..|s| - 1];
      TrimRightCons(c, s[..|s| - 1]);
    }
  }

  /** A leading blank never survives trimming. */
  lemma TrimBlankCons(c: char, s: string)
    requires IsBlank(c)
    ensures Trim([c] + s) == Trim(s)
  {
    TrimRightCons(c, s);
    if TrimRight(s) != "" {
      assert ([c] + TrimRight(s))[1..] == TrimRight(s);
    }
  }

  lemma TrimPlainSpace(p: string)
    requires Plain(p)
    ensures Trim(p + " ") == p
  {
    var t := p + " ";
    assert t[..|t| - 1] == p;
    assert TrimRight(t) == TrimRight(p) == p;
    assert TrimLeft(p) == p;
  }

  /** Trimming the pieces of " " + s gives the trimmed pieces of s. */
  lemma TrimAllLeadingSpace(s: string)
    ensures TrimAll(Explode(" " + s)) == TrimAll(Explode(s))
  {
    ExplodeCons(' ', s);
    var e := Explode(s);
    TrimBlankCons(' ', e[0]);
    assert TrimAll(Explode(" " + s)) == [Trim([' '] + e[0])] + TrimAll(e[1..]);
  }

  /** Splitting the stored text on '|' and trimming each piece gives back the headings:
      the join of the scanner and the explode of the dashboard are inverse. */
  lemma {:induction false} JoinExplodeRoundTrip(parts: seq<string>)
    requires |parts| > 0
    requires forall i :: 0 <= i < |parts| ==> Plain(parts[i])
    ensures TrimAll(Explode(Join(parts))) == parts
  {
    var p := parts[0];
    if |parts| == 1 {
      ExplodePlain(p);
      assert Trim(p) == p;
    } else {
      var rest := Join(parts[1..]);
      assert Join(parts) == (p + " ") + "|" + (" " + rest);
      assert '|' !in p + " ";
      ExplodeAfterBar(p + " ", " " + rest);
      TrimPlainSpace(p);
      TrimAllLeadingSpace(rest);
      JoinExplodeRoundTrip(parts[1..]);
      assert TrimAll(Explode(Join(parts))) == [Trim(p + " ")] + TrimAll(Explode(" " + rest));
    }
  }

  /** Every rejected verdict's text reads back as its reasons' headings, in order. */
  lemma ReasonTextReadsBack(rs: seq<Reason>)
    requires rs != []
    ensures TrimAll(Explode(ReasonText(rs))) == Headings(rs)
  {
    var hs := Headings(rs);
    forall i | 0 <= i < |hs|
      ensures Plain(hs[i])
    {
      match rs[i]
      case WeakMoat(_, _) =>
      case UnstableMoat(_) =>
      case WeakEngine(_) =>
      case UnstableEngine(_) =>
      case HighDebt(_) =>
      case Expensive(_) =>
      case PoorCashQuality =>
    }
    JoinExplodeRoundTrip(hs);
  }
}
