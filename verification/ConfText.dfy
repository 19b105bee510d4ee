/** Text as the tunnel editor handles it: trimming, searching, splitting into lines. */
module ConfText {

  predicate Space(c: char) {
    || '\t' <= c <= '\r' || c == ' ' || c == '\U{A0}' || c == '\U{1680}' || '\U{2000}' <= c <= '\U{200A}'
    || c == '\U{2028}' || c == '\U{2029}' || c == '\U{202F}' || c == '\U{205F}' || c == '\U{3000}' || c == '\U{FEFF}'
  }

  predicate Blank(s: string) {
    forall i :: 0 <= i < |s| ==> Space(s[i])
  }

  function TrimStart(s: string): string {
    if s != "" && Space(s[0]) then TrimStart(s[1..]) else s
  }

  function TrimEnd(s: string): string {
    if s != "" && Space(s[|s| - 1]) then TrimEnd(s[..|s| - 1]) else s
  }

  function Trim(s: string): string {
    TrimEnd(TrimStart(s))
  }

  /** Not empty, and nothing to trim at either end. */
  predicate Tight(s: string) {
    s != "" && !Space(s[0]) && !Space(s[|s| - 1])
  }

  lemma {:induction false} TrimStartSkips(before: string, s: string)
    requires Blank(before) && (s == "" || !Space(s[0]))
    ensures TrimStart(before + s) == s
  {
    if before == "" {
      assert before + s == s;
    } else {
      assert (before + s)[1..] == before[1..] + s;
      TrimStartSkips(before[1..], s);
    }
  }

  lemma {:induction false} TrimEndSkips(s: string, after: string)
    requires Blank(after) && (s == "" || !Space(s[|s| - 1]))
    ensures TrimEnd(s + after) == s
  {
    if after == "" {
      assert s + after == s;
    } else {
      assert (s + after)[..|s + after| - 1] == s + after[..|after| - 1];
      TrimEndSkips(s, after[..|after| - 1]);
    }
  }

  /** What is tight comes back from between any blanks. */
  lemma TrimFinds(before: string, s: string, after: string)
    requires Blank(before) && Tight(s) && Blank(after)
    ensures Trim(before + s + after) == s
  {
    assert before + s + after == before + (s + after);
    TrimStartSkips(before, s + after);
    TrimEndSkips(s, after);
  }

  lemma TrimBlank(s: string)
    requires Blank(s)
    ensures Trim(s) == ""
  {
    assert s + "" == s;
    TrimStartSkips(s, "");
  }

  lemma {:induction false} TrimStartSplits(s: string) returns (before: string)
    ensures Blank(before) && s == before + TrimStart(s)
    ensures TrimStart(s) == "" || !Space(TrimStart(s)[0])
  {
    if s != "" && Space(s[0]) {
      var rest := TrimStartSplits(s[1..]);
      before := [s[0]] + rest;
    } else {
      before := "";
    }
  }

  lemma {:induction false} TrimEndSplits(s: string) returns (after: string)
    ensures Blank(after) && s == TrimEnd(s) + after
    ensures TrimEnd(s) == "" || !Space(TrimEnd(s)[|TrimEnd(s)| - 1])
  {
    if s != "" && Space(s[|s| - 1]) {
      var rest := TrimEndSplits(s[..|s| - 1]);
      after := rest + [s[|s| - 1]];
    } else {
      after := "";
    }
  }

  lemma TrimSplits(s: string) returns (before: string, after: string)
    ensures Blank(before) && Blank(after) && s == before + Trim(s) + after
    ensures Trim(s) == "" || Tight(Trim(s))
  {
    hide Blank, TrimStart, TrimEnd;
    before := TrimStartSplits(s);
    after := TrimEndSplits(TrimStart(s));
    Associate(before, Trim(s), after);
  }

  lemma TrimTight(s: string)
    requires Tight(s)
    ensures Trim(s) == s
  {
  }

  lemma TrimPart(s: string)
    ensures forall c :: c in Trim(s) ==> c in s
  {
    var before, after := TrimSplits(s);
  }

  /** What a line says holds no line feed. */
  lemma TrimLine(raw: string)
    requires IsLine(raw)
    ensures '\n' !in Trim(raw)
  {
    hide Trim;
    var before, after := TrimSplits(raw);
    var words := Trim(raw);
    forall i | 0 <= i < |words|
      ensures words[i] != '\n'
    {
      assert raw[|before| + i] == words[i];
    }
  }

  /** Ending a line does not change what it says. */
  lemma TrimEnding(s: string, ending: string)
    requires Blank(ending)
    ensures Trim(s + ending) == Trim(s)
  {
    var before, after := TrimSplits(s);
    if Trim(s) == "" {
      assert s == before + after;
      TrimBlank(s + ending);
    } else {
      assert s + ending == before + Trim(s) + (after + ending);
      TrimFinds(before, Trim(s), after + ending);
    }
  }

  function IndexOf(s: string, c: char): (r: int)
    ensures r == -1 || (0 <= r < |s| && s[r] == c)
    ensures forall i :: 0 <= i < |s| && (r == -1 || i < r) ==> s[i] != c
  {
    if s == "" then -1
    else if s[0] == c then 0
    else
      var r := IndexOf(s[1..], c);
      assert forall i :: 0 < i < |s| ==> s[i] == s[1..][i - 1];
      if r < 0 then -1 else r + 1
  }

  function LowerChar(c: char): char {
    if 'A' <= c <= 'Z' then c - 'A' + 'a' else if c == '\U{212A}' then 'k' else c
  }

  /** Lower case as far as it can produce a Latin letter; no other character can. */
  function Lower(s: string): string {
    seq(|s|, i requires 0 <= i < |s| => LowerChar(s[i]))
  }

  /** The lines of a text, each with its line feed; the last one may lack it. */
  function Raws(text: string): seq<string> {
    if text == "" then []
    else
      var n := IndexOf(text, '\n');
      if n < 0 then [text] else [text[..n + 1]] + Raws(text[n + 1..])
  }

  function Join(raws: seq<string>): string {
    if raws == [] then "" else raws[0] + Join(raws[1..])
  }

  predicate Ends(raw: string) {
    raw != "" && raw[|raw| - 1] == '\n'
  }

  /** A line holds a line feed only as its last character. */
  predicate IsLine(raw: string) {
    raw != "" && forall i :: 0 <= i < |raw| - 1 ==> raw[i] != '\n'
  }

  predicate Splits(raws: seq<string>) {
    && (forall i :: 0 <= i < |raws| ==> IsLine(raws[i]))
    && (forall i :: 0 <= i < |raws| - 1 ==> Ends(raws[i]))
  }

  lemma JoinFirst(raw: string, rest: seq<string>)
    ensures Join([raw] + rest) == raw + Join(rest)
  {
  }

  lemma {:induction false} RawsJoin(text: string)
    ensures Join(Raws(text)) == text
  {
    hide Join;
    JoinNone();
    if text != "" {
      var n := IndexOf(text, '\n');
      if n < 0 {
        JoinFirst(text, []);
        assert [text] + [] == [text] && text + "" == text;
      } else {
        var rest := text[n + 1..];
        RawsJoin(rest);
        JoinFirst(text[..n + 1], Raws(rest));
        assert text[..n + 1] + rest == text;
      }
    }
  }

  lemma FirstLine(text: string)
    requires text != ""
    ensures var n := IndexOf(text, '\n');
            if n < 0 then Splits([text]) else IsLine(text[..n + 1]) && Ends(text[..n + 1])
  {
  }

  lemma {:induction false} RawsSplit(text: string)
    ensures Splits(Raws(text))
    decreases |text|
  {
    hide IsLine, Ends;
    if text == "" {
      assert Raws(text) == [];
    } else {
      hide Splits;
      FirstLine(text);
      var n := IndexOf(text, '\n');
      if n >= 0 {
        RawsSplit(text[n + 1..]);
        SplitsFirst(text[..n + 1], Raws(text[n + 1..]));
      }
    }
  }

  lemma SplitsFirst(raw: string, rest: seq<string>)
    requires IsLine(raw) && Ends(raw) && Splits(rest)
    ensures Splits([raw] + rest)
  {
  }

  /** There is only one way to split a text into lines. */
  lemma {:induction false} SplitIsUnique(raws: seq<string>)
    requires Splits(raws)
    ensures Raws(Join(raws)) == raws
  {
    if raws != [] {
      var rest, text := raws[1..], Join(raws);
      SplitIsUnique(rest);
      assert Join(raws) == raws[0] + Join(rest);
      var n := IndexOf(text, '\n');
      if Ends(raws[0]) {
        assert text[|raws[0]| - 1] == '\n';
        assert forall i :: 0 <= i < |raws[0]| - 1 ==> text[i] == raws[0][i];
        assert text[..n + 1] == raws[0] && text[n + 1..] == Join(rest);
      } else {
        assert rest == [];
        assert text == raws[0];
      }
    }
  }

  lemma JoinRest(raws: seq<string>)
    requires raws != []
    ensures Join(raws) == raws[0] + Join(raws[1..])
  {
  }

  lemma {:induction false} JoinOne(raws: seq<string>, raw: string)
    ensures Join(raws + [raw]) == Join(raws) + raw
  {
    hide Join;
    JoinNone();
    if raws == [] {
      assert raws + [raw] == [raw] + [];
      JoinFirst(raw, []);
    } else {
      var rest := raws[1..];
      JoinOne(rest, raw);
      JoinRest(raws);
      assert raws + [raw] == [raws[0]] + (rest + [raw]);
      JoinFirst(raws[0], rest + [raw]);
      Associate(raws[0], Join(rest), raw);
    }
  }

  lemma JoinNone()
    ensures Join([]) == ""
  {
  }

  lemma Associate(a: string, b: string, c: string)
    ensures a + (b + c) == a + b + c
  {
  }
}
