/** The last lines of a stream (internal/runner/runner.go, tailBuffer), kept in bounded space. */
module Tails {
  import opened Bytes

  /** The last n bytes. */
  function Last(n: nat, s: Text): Text {
    if |s| <= n then s else s[|s| - n..]
  }

  function LastLines(n: nat, lines: seq<Text>): seq<Text> {
    if |lines| <= n then lines else lines[|lines| - n..]
  }

  function TrimRight(s: Text, c: byte): (r: Text)
    ensures |r| <= |s| && r == s[..|r|]
  {
    if s != [] && s[|s| - 1] == c then TrimRight(s[..|s| - 1], c) else s
  }

  function Join(lines: seq<Text>): Text {
    if lines == [] then []
    else if |lines| == 1 then lines[0]
    else Join(lines[..|lines| - 1]) + [LF] + lines[|lines| - 1]
  }

  /** The first newline of s, or its length. */
  function LineEnd(s: Text): (i: nat)
    ensures i <= |s| && LF !in s[..i] && (i < |s| ==> s[i] == LF)
  {
    if s == [] || s[0] == LF then 0 else 1 + LineEnd(s[1..])
  }

  // What the buffer stands for

  /** The ended lines of a stream. */
  function Lines(all: Text): seq<Text> {
    if all == [] then []
    else
      var init := all[..|all| - 1];
      if all[|all| - 1] == LF then Lines(init) + [Rest(init)] else Lines(init)
  }

  /** What comes after the last newline. */
  function Rest(all: Text): (r: Text)
    ensures |r| <= |all|
  {
    if all == [] || all[|all| - 1] == LF then [] else Rest(all[..|all| - 1]) + [all[|all| - 1]]
  }

  function Trimmed(lines: seq<Text>): seq<Text> {
    if lines == [] then [] else Trimmed(lines[..|lines| - 1]) + [TrimRight(lines[|lines| - 1], CR)]
  }

  /** The last lines of everything written, with the line that has not ended, cut to maxBytes. */
  function LastOutput(all: Text, maxLines: nat, maxBytes: nat): Text {
    TextOf(Lines(all), Rest(all), maxLines, maxBytes)
  }

  /** Lines that end with a carriage return are not longer than n. */
  predicate PlainLine(n: nat, line: Text) {
    line != [] && line[|line| - 1] == CR ==> |line| <= n
  }

  predicate Plain(all: Text, n: nat) {
    forall line | line in Lines(all) :: PlainLine(n, line)
  }

  lemma Regroup(a: Text, b: Text, c: Text)
    ensures a + b + c == a + (b + c)
  {
  }

  lemma LastByte(all: Text, c: byte)
    ensures Lines(all + [c]) == if c == LF then Lines(all) + [Rest(all)] else Lines(all)
    ensures Rest(all + [c]) == if c == LF then [] else Rest(all) + [c]
  {
    assert (all + [c])[..|all|] == all;
  }

  lemma {:induction false} LineGrows(all: Text, p: Text)
    requires LF !in p
    ensures Lines(all + p) == Lines(all) && Rest(all + p) == Rest(all) + p
  {
    if p == [] {
      assert all + p == all;
    } else {
      var init, c := p[..|p| - 1], p[|p| - 1];
      LineGrows(all, init);
      assert p == init + [c] && c in p;
      Regroup(all, init, [c]);
      Regroup(Rest(all), init, [c]);
      LastByte(all + init, c);
    }
  }

  lemma LineEnds(all: Text, p: Text)
    requires LF !in p
    ensures Lines(all + p + [LF]) == Lines(all) + [Rest(all) + p] && Rest(all + p + [LF]) == []
  {
    LineGrows(all, p);
    LastByte(all + p, LF);
  }

  lemma {:induction false} RestHasNoNewline(all: Text)
    ensures LF !in Rest(all)
  {
    if all != [] && all[|all| - 1] != LF {
      RestHasNoNewline(all[..|all| - 1]);
    }
  }

  // Lines cut at the front

  /** a is s, or an end of s that still has n bytes. */
  predicate Cut(n: nat, a: Text, s: Text) {
    a == s || (n <= |a| <= |s| && a == s[|s| - |a|..])
  }

  predicate CutLines(n: nat, a: seq<Text>, s: seq<Text>) {
    |a| == |s| && forall i | 0 <= i < |a| :: Cut(n, a[i], s[i])
  }

  lemma CutGrows(n: nat, a: Text, s: Text, p: Text)
    requires Cut(n, a, s)
    ensures Cut(n, a + p, s + p)
  {
    if a != s {
      assert a + p == (s + p)[|s| - |a|..];
    }
  }

  lemma CutToLast(n: nat, a: Text, s: Text)
    requires Cut(n, a, s)
    ensures Cut(n, Last(n, a), s)
  {
  }

  lemma CutTrims(n: nat, a: Text, s: Text)
    requires Cut(n, a, s) && PlainLine(n, s)
    ensures Cut(n, TrimRight(a, CR), TrimRight(s, CR))
  {
    if a != s && a != [] {
      assert a[|a| - 1] == s[|s| - 1];
    }
  }

  lemma CutMeansLast(n: nat, a: Text, s: Text)
    requires Cut(n, a, s)
    ensures Last(n, a) == Last(n, s)
  {
  }

  /** Two texts with the same last n bytes, and with the same bytes before them if they are shorter. */
  predicate Alike(n: nat, a: Text, s: Text) {
    a == s || (n <= |a| && n <= |s| && Last(n, a) == Last(n, s))
  }

  lemma LastOfConcat(n: nat, x: Text, z: Text)
    ensures Last(n, x + z) == if |z| >= n then Last(n, z) else Last(n - |z|, x) + z
  {
  }

  lemma LastOfLast(m: nat, n: nat, x: Text)
    requires m <= n
    ensures Last(m, Last(n, x)) == Last(m, x)
  {
  }

  lemma AlikeGrows(n: nat, a: Text, s: Text, z: Text)
    requires Alike(n, a, s)
    ensures Alike(n, a + z, s + z)
  {
    LastOfConcat(n, a, z);
    LastOfConcat(n, s, z);
    if |z| < n && a != s {
      LastOfLast(n - |z|, n, a);
      LastOfLast(n - |z|, n, s);
    }
  }

  lemma AlikeJoins(n: nat, a: Text, s: Text, c: Text, t: Text)
    requires Alike(n, a, s) && Alike(n, c, t)
    ensures Alike(n, a + [LF] + c, s + [LF] + t)
  {
    if c == t {
      AlikeGrows(n, a, s, [LF] + c);
      assert a + ([LF] + c) == a + [LF] + c && s + ([LF] + c) == s + [LF] + c;
    } else {
      LastOfConcat(n, a + [LF], c);
      LastOfConcat(n, s + [LF], t);
    }
  }

  lemma {:induction false} JoinAlike(n: nat, a: seq<Text>, s: seq<Text>)
    requires CutLines(n, a, s)
    ensures Alike(n, Join(a), Join(s))
  {
    if |a| == 1 {
      assert Cut(n, a[0], s[0]);
    } else if |a| > 1 {
      var a', s', c, t := a[..|a| - 1], s[..|s| - 1], a[|a| - 1], s[|s| - 1];
      JoinAlike(n, a', s');
      CutIsAlike(n, c, t);
      AlikeJoins(n, Join(a'), Join(s'), c, t);
    }
  }

  lemma CutIsAlike(n: nat, a: Text, s: Text)
    requires Cut(n, a, s)
    ensures Alike(n, a, s)
  {
  }

  /** The lines without the empty ones at the end. */
  function WithoutEmptyEnd(lines: seq<Text>): seq<Text> {
    if lines != [] && lines[|lines| - 1] == [] then WithoutEmptyEnd(lines[..|lines| - 1]) else lines
  }

  predicate NoNewlines(lines: seq<Text>) {
    forall line | line in lines :: LF !in line
  }

  lemma {:induction false} TrimJoined(lines: seq<Text>)
    requires NoNewlines(lines)
    ensures TrimRight(Join(lines), LF) == Join(WithoutEmptyEnd(lines))
  {
    if lines != [] {
      var init, line := lines[..|lines| - 1], lines[|lines| - 1];
      var joined := Join(lines);
      if line == [] {
        TrimJoined(init);
        if init != [] {
          assert joined == Join(init) + [LF] + [] == Join(init) + [LF];
          assert joined[..|joined| - 1] == Join(init);
        }
      } else {
        assert line in lines && line[|line| - 1] in line;
        assert joined[|joined| - 1] == line[|line| - 1];
      }
    }
  }

  lemma {:induction false} WithoutEmptyEndCut(n: nat, a: seq<Text>, s: seq<Text>)
    requires CutLines(n, a, s) && n > 0
    ensures CutLines(n, WithoutEmptyEnd(a), WithoutEmptyEnd(s))
  {
    if a != [] {
      assert Cut(n, a[|a| - 1], s[|s| - 1]);
      if a[|a| - 1] == [] {
        WithoutEmptyEndCut(n, a[..|a| - 1], s[..|s| - 1]);
      }
    }
  }

  /** Cutting lines at the front changes nothing in the last n bytes of the text. */
  lemma CutLinesLookAlike(n: nat, a: seq<Text>, s: seq<Text>)
    requires CutLines(n, a, s) && NoNewlines(a) && NoNewlines(s)
    ensures Last(n, TrimRight(Join(a), LF)) == Last(n, TrimRight(Join(s), LF))
  {
    if n > 0 {
      TrimJoined(a);
      TrimJoined(s);
      WithoutEmptyEndCut(n, a, s);
      JoinAlike(n, WithoutEmptyEnd(a), WithoutEmptyEnd(s));
    }
  }

  /** What the buffer holds of all: its last lines, and the line that has not ended, each of them cut at the
      front to no less than maxBytes, or not at all; the carriage returns go after the cut. */
  ghost predicate Holds(maxLines: nat, maxBytes: nat, lines: seq<Text>, partial: Text, all: Text) {
    Cut(maxBytes, partial, Rest(all)) && exists cut :: HoldsCut(maxLines, maxBytes, lines, cut, all)
  }

  predicate HoldsCut(maxLines: nat, maxBytes: nat, lines: seq<Text>, cut: seq<Text>, all: Text) {
    CutLines(maxBytes, cut, Lines(all)) && lines == LastLines(maxLines, Trimmed(cut))
  }

  lemma NothingHeld(maxLines: nat, maxBytes: nat)
    ensures Holds(maxLines, maxBytes, [], [], [])
  {
    assert HoldsCut(maxLines, maxBytes, [], [], []);
  }

  /** The first line of head and todo, whose end is in todo, and what comes after it. */
  lemma LineFound(head: Text, todo: Text) returns (more: Text, rest: Text)
    requires LF !in head && LineEnd(head + todo) < |head + todo|
    ensures LF !in head + more && todo == more + [LF] + rest
    ensures LineEnd(head + todo) == |head + more| && (head + todo)[..|head + more|] == head + more
    ensures (head + todo)[|head + more| + 1..] == rest
  {
    var partial, i := head + todo, LineEnd(head + todo);
    forall j | 0 <= j < |head| ensures partial[j] != LF {
      assert head[j] in head;
    }
    more, rest := todo[..i - |head|], todo[i - |head| + 1..];
    assert partial[..i] == head + more;
  }

  lemma TrimmedPush(lines: seq<Text>, line: Text)
    ensures Trimmed(lines + [line]) == Trimmed(lines) + [TrimRight(line, CR)]
  {
    assert (lines + [line])[..|lines|] == lines;
  }

  lemma LastLinesPush(k: nat, s: seq<Text>, x: Text)
    ensures LastLines(k, LastLines(k, s) + [x]) == LastLines(k, s + [x])
  {
  }

  lemma CutLinesLast(n: nat, k: nat, a: seq<Text>, s: seq<Text>)
    requires CutLines(n, a, s)
    ensures CutLines(n, LastLines(k, a), LastLines(k, s))
  {
  }

  lemma PushHolds(maxLines: nat, maxBytes: nat, lines: seq<Text>, head: Text, all: Text, more: Text)
    requires Holds(maxLines, maxBytes, lines, head, all) && LF !in head + more
    ensures Holds(maxLines, maxBytes, LastLines(maxLines, lines + [TrimRight(head + more, CR)]), [], all + more + [LF])
  {
    var cut :| HoldsCut(maxLines, maxBytes, lines, cut, all);
    assert LF !in more by { assert forall c | c in more :: c in head + more; }
    LineEnds(all, more);
    CutGrows(maxBytes, head, Rest(all), more);
    PushCut(maxLines, maxBytes, lines, cut, Lines(all), head + more, Rest(all) + more);
    assert HoldsCut(maxLines, maxBytes, LastLines(maxLines, lines + [TrimRight(head + more, CR)]), cut + [head + more], all + more + [LF]);
  }

  lemma PushCut(maxLines: nat, n: nat, lines: seq<Text>, cut: seq<Text>, whole: seq<Text>, a: Text, line: Text)
    requires CutLines(n, cut, whole) && lines == LastLines(maxLines, Trimmed(cut)) && Cut(n, a, line)
    ensures CutLines(n, cut + [a], whole + [line])
    ensures LastLines(maxLines, lines + [TrimRight(a, CR)]) == LastLines(maxLines, Trimmed(cut + [a]))
  {
    TrimmedPush(cut, a);
    LastLinesPush(maxLines, Trimmed(cut), TrimRight(a, CR));
  }

  lemma EndHolds(maxLines: nat, maxBytes: nat, lines: seq<Text>, head: Text, all: Text, p: Text)
    requires Holds(maxLines, maxBytes, lines, head, all) && LF !in p
    ensures Holds(maxLines, maxBytes, lines, Last(maxBytes, head + p), all + p)
  {
    var cut :| HoldsCut(maxLines, maxBytes, lines, cut, all);
    LineGrows(all, p);
    CutGrows(maxBytes, head, Rest(all), p);
    CutToLast(maxBytes, head + p, Rest(all) + p);
    assert HoldsCut(maxLines, maxBytes, lines, cut, all + p);
  }

  function WithRest(lines: seq<Text>, rest: Text): seq<Text> {
    if rest == [] then lines else lines + [rest]
  }

  lemma {:induction false} LinesHaveNoNewline(all: Text)
    ensures NoNewlines(Lines(all)) && LF !in Rest(all)
  {
    RestHasNoNewline(all);
    if all != [] {
      LinesHaveNoNewline(all[..|all| - 1]);
    }
  }

  lemma {:induction false} TrimKeepsOut(line: Text)
    requires LF !in line
    ensures LF !in TrimRight(line, CR)
  {
    if line != [] {
      TrimKeepsOut(line[..|line| - 1]);
    }
  }

  lemma {:induction false} TrimmedAt(lines: seq<Text>)
    ensures |Trimmed(lines)| == |lines| && forall i | 0 <= i < |lines| :: Trimmed(lines)[i] == TrimRight(lines[i], CR)
  {
    if lines != [] {
      TrimmedAt(lines[..|lines| - 1]);
    }
  }

  lemma CutHas(n: nat, a: Text, s: Text)
    requires Cut(n, a, s)
    ensures forall c | c in a :: c in s
  {
  }

  lemma CutKeepsOut(n: nat, cut: seq<Text>, lines: seq<Text>)
    requires CutLines(n, cut, lines) && NoNewlines(lines)
    ensures NoNewlines(cut) && NoNewlines(Trimmed(cut))
  {
    TrimmedAt(cut);
    forall i | 0 <= i < |cut| ensures LF !in cut[i] && LF !in Trimmed(cut)[i] {
      assert Cut(n, cut[i], lines[i]) && lines[i] in lines;
      CutHas(n, cut[i], lines[i]);
      TrimKeepsOut(cut[i]);
    }
  }

  lemma HeldHasNoNewline(maxLines: nat, maxBytes: nat, lines: seq<Text>, partial: Text, all: Text)
    requires Holds(maxLines, maxBytes, lines, partial, all)
    ensures NoNewlines(lines) && LF !in partial
  {
    LinesHaveNoNewline(all);
    var cut :| HoldsCut(maxLines, maxBytes, lines, cut, all);
    CutKeepsOut(maxBytes, cut, Lines(all));
    CutHas(maxBytes, partial, Rest(all));
    assert forall line | line in lines :: line in Trimmed(cut);
  }

  /** The text of lines and of a line that has not ended, with the carriage returns of the lines removed. */
  function TextOf(lines: seq<Text>, rest: Text, maxLines: nat, maxBytes: nat): Text {
    Last(maxBytes, TrimRight(Join(WithRest(LastLines(maxLines, Trimmed(lines)), rest)), LF))
  }

  /** The cut of the line that has not ended cannot be seen. */
  lemma RestCutUnseen(n: nat, lines: seq<Text>, partial: Text, rest: Text)
    requires NoNewlines(lines) && LF !in rest && Cut(n, partial, rest)
    ensures Last(n, TrimRight(Join(WithRest(lines, partial)), LF)) == Last(n, TrimRight(Join(WithRest(lines, rest)), LF))
  {
    if n > 0 && partial != rest {
      LastCut(n, lines, partial, rest);
      CutLinesLookAlike(n, lines + [partial], lines + [rest]);
    }
  }

  lemma LastCut(n: nat, lines: seq<Text>, partial: Text, rest: Text)
    requires NoNewlines(lines) && LF !in rest && Cut(n, partial, rest)
    ensures CutLines(n, lines + [partial], lines + [rest]) && NoNewlines(lines + [partial]) && NoNewlines(lines + [rest])
  {
    CutHas(n, partial, rest);
  }

  lemma HeldShows(maxLines: nat, n: nat, cut: seq<Text>, partial: Text, all: Text)
    requires CutLines(n, cut, Lines(all)) && Cut(n, partial, Rest(all))
    ensures Shown(n, Tail(LastLines(maxLines, Trimmed(cut)), partial)) == TextOf(cut, Rest(all), maxLines, n)
  {
    LinesHaveNoNewline(all);
    CutKeepsOut(n, cut, Lines(all));
    var last := LastLines(maxLines, Trimmed(cut));
    assert forall line | line in last :: line in Trimmed(cut);
    RestCutUnseen(n, last, partial, Rest(all));
  }

  /** Cutting plain lines does not show. */
  lemma PlainCutUnseen(maxLines: nat, n: nat, cut: seq<Text>, all: Text)
    requires CutLines(n, cut, Lines(all)) && Plain(all, n)
    ensures TextOf(cut, Rest(all), maxLines, n) == LastOutput(all, maxLines, n)
  {
    if n > 0 {
      var lines := Lines(all);
      LinesHaveNoNewline(all);
      CutKeepsOut(n, cut, lines);
      CutKeepsOut(n, lines, lines);
      TrimmedCut(n, cut, lines);
      var a, s := LastLines(maxLines, Trimmed(cut)), LastLines(maxLines, Trimmed(lines));
      assert forall line | line in a :: line in Trimmed(cut);
      assert forall line | line in s :: line in Trimmed(lines);
      CutLinesLast(n, maxLines, Trimmed(cut), Trimmed(lines));
      CutLinesLookAlike(n, WithRest(a, Rest(all)), WithRest(s, Rest(all)));
    }
  }

  lemma TrimmedCut(n: nat, cut: seq<Text>, lines: seq<Text>)
    requires CutLines(n, cut, lines) && forall line | line in lines :: PlainLine(n, line)
    ensures CutLines(n, Trimmed(cut), Trimmed(lines))
  {
    TrimmedAt(cut);
    TrimmedAt(lines);
    forall i | 0 <= i < |lines| ensures Cut(n, Trimmed(cut)[i], Trimmed(lines)[i]) {
      assert lines[i] in lines && Cut(n, cut[i], lines[i]);
      CutTrims(n, cut[i], lines[i]);
    }
  }

  lemma NoneFound(partial: Text, head: Text, todo: Text)
    requires partial == head + todo && LineEnd(partial) == |partial|
    ensures LF !in todo && LF !in partial
  {
    assert partial[..|partial|] == partial;
    forall x | x in todo ensures x in partial {
    }
  }

  // What a write does to the buffer

  datatype Tail = Tail(lines: seq<Text>, partial: Text)

  function TakeLines(maxLines: nat, t: Tail): Tail
    decreases |t.partial|
  {
    var i := LineEnd(t.partial);
    if i == |t.partial| then t
    else TakeLines(maxLines, Tail(LastLines(maxLines, t.lines + [TrimRight(t.partial[..i], CR)]), t.partial[i + 1..]))
  }

  function Wrote(maxLines: nat, maxBytes: nat, t: Tail, p: Text): Tail {
    var taken := TakeLines(maxLines, t.(partial := t.partial + p));
    taken.(partial := Last(maxBytes, taken.partial))
  }

  /** The buffer after the writes ws. */
  function Written(maxLines: nat, maxBytes: nat, ws: seq<Text>): Tail {
    if ws == [] then Tail([], [])
    else Wrote(maxLines, maxBytes, Written(maxLines, maxBytes, ws[..|ws| - 1]), ws[|ws| - 1])
  }

  function Shown(maxBytes: nat, t: Tail): Text {
    Last(maxBytes, TrimRight(Join(WithRest(t.lines, t.partial)), LF))
  }

  /** head is what the buffer holds of the line that all ends in, and todo is still to be looked at. */
  lemma {:induction false} TakenHolds(maxLines: nat, maxBytes: nat, lines: seq<Text>, head: Text, todo: Text, all: Text)
    requires Holds(maxLines, maxBytes, lines, head, all)
    ensures var taken := TakeLines(maxLines, Tail(lines, head + todo));
            Holds(maxLines, maxBytes, taken.lines, Last(maxBytes, taken.partial), all + todo)
    decreases |todo|
  {
    if LineEnd(head + todo) == |head + todo| {
      NoneTaken(maxLines, maxBytes, lines, head, todo, all);
    } else {
      var lines', rest, all' := FirstTaken(maxLines, maxBytes, lines, head, todo, all);
      TakenHolds(maxLines, maxBytes, lines', [], rest, all');
      assert [] + rest == rest;
    }
  }

  lemma NoneTaken(maxLines: nat, maxBytes: nat, lines: seq<Text>, head: Text, todo: Text, all: Text)
    requires Holds(maxLines, maxBytes, lines, head, all) && LineEnd(head + todo) == |head + todo|
    ensures Holds(maxLines, maxBytes, lines, Last(maxBytes, head + todo), all + todo)
  {
    NoneFound(head + todo, head, todo);
    EndHolds(maxLines, maxBytes, lines, head, all, todo);
  }

  lemma FirstTaken(maxLines: nat, maxBytes: nat, lines: seq<Text>, head: Text, todo: Text, all: Text)
    returns (lines': seq<Text>, rest: Text, all': Text)
    requires Holds(maxLines, maxBytes, lines, head, all) && LineEnd(head + todo) < |head + todo|
    ensures Holds(maxLines, maxBytes, lines', [], all') && |rest| < |todo| && all' + rest == all + todo
    ensures TakeLines(maxLines, Tail(lines, head + todo)) == TakeLines(maxLines, Tail(lines', rest))
  {
    HeldHasNoNewline(maxLines, maxBytes, lines, head, all);
    var more;
    more, rest := LineFound(head, todo);
    all', lines' := all + more + [LF], LastLines(maxLines, lines + [TrimRight(head + more, CR)]);
    TakeFirst(maxLines, lines, head + todo, head + more, rest);
    PushHolds(maxLines, maxBytes, lines, head, all, more);
    RegroupLine(all, more, rest);
  }

  lemma RegroupLine(all: Text, more: Text, rest: Text)
    ensures all + more + [LF] + rest == all + (more + [LF] + rest)
  {
  }

  lemma TakeFirst(maxLines: nat, lines: seq<Text>, p: Text, line: Text, rest: Text)
    requires LineEnd(p) == |line| < |p| && p[..|line|] == line && p[|line| + 1..] == rest
    ensures TakeLines(maxLines, Tail(lines, p)) == TakeLines(maxLines, Tail(LastLines(maxLines, lines + [TrimRight(line, CR)]), rest))
  {
  }

  lemma WroteHolds(maxLines: nat, maxBytes: nat, t: Tail, p: Text, all: Text)
    requires Holds(maxLines, maxBytes, t.lines, t.partial, all)
    ensures var t' := Wrote(maxLines, maxBytes, t, p); Holds(maxLines, maxBytes, t'.lines, t'.partial, all + p)
  {
    TakenHolds(maxLines, maxBytes, t.lines, t.partial, p, all);
  }

  lemma {:induction false} WrittenHolds(maxLines: nat, maxBytes: nat, ws: seq<Text>)
    ensures var t := Written(maxLines, maxBytes, ws); Holds(maxLines, maxBytes, t.lines, t.partial, Concat(ws))
  {
    if ws == [] {
      NothingHeld(maxLines, maxBytes);
    } else {
      var init, t := ws[..|ws| - 1], Written(maxLines, maxBytes, ws[..|ws| - 1]);
      WrittenHolds(maxLines, maxBytes, init);
      WroteHolds(maxLines, maxBytes, t, ws[|ws| - 1], Concat(init));
    }
  }

  // The buffer

  class TailBuffer {
    const maxLines: nat
    const maxBytes: nat
    var lines: seq<Text>
    var partial: Text
    /** Everything written so far. */
    ghost var all: Text

    ghost predicate Valid()
      reads this
    {
      Holds(maxLines, maxBytes, lines, partial, all)
    }

    constructor (maxLines: nat, maxBytes: nat)
      ensures Valid() && this.maxLines == maxLines && this.maxBytes == maxBytes && all == []
      ensures Tail(lines, partial) == Tail([], [])
    {
      this.maxLines, this.maxBytes := maxLines, maxBytes;
      lines, partial, all := [], [], [];
      NothingHeld(maxLines, maxBytes);
    }

    method Write(p: Text)
      requires Valid()
      modifies this
      ensures Valid() && all == old(all) + p
      ensures Tail(lines, partial) == Wrote(maxLines, maxBytes, old(Tail(lines, partial)), p)
    {
      WroteHolds(maxLines, maxBytes, Tail(lines, partial), p, all);
      Append(p);
      all := all + p;
    }

    /** Takes the ended lines one by one. */
    method Append(p: Text)
      modifies this`lines, this`partial
      ensures Tail(lines, partial) == Wrote(maxLines, maxBytes, old(Tail(lines, partial)), p)
    {
      partial := partial + p;
      while true
        invariant TakeLines(maxLines, Tail(lines, partial)) == TakeLines(maxLines, old(Tail(lines, partial + p)))
        decreases |partial|
      {
        var i := LineEnd(partial);
        if i == |partial| {
          break;
        }
        Push(TrimRight(partial[..i], CR));
        partial := partial[i + 1..];
      }
      if |partial| > maxBytes {
        partial := partial[|partial| - maxBytes..];
      }
    }

    method Push(line: Text)
      modifies this`lines
      ensures lines == LastLines(maxLines, old(lines) + [line])
    {
      lines := lines + [line];
      if |lines| > maxLines {
        lines := lines[|lines| - maxLines..];
      }
    }

    /** The kept lines. They are the last lines of the output, however it was split into writes. */
    method String() returns (s: Text)
      requires Valid()
      ensures |s| <= maxBytes && s == Shown(maxBytes, Tail(lines, partial))
      ensures Plain(all, maxBytes) ==> s == LastOutput(all, maxLines, maxBytes)
    {
      s := Kept();
      if Plain(all, maxBytes) {
        HeldPlain(maxLines, maxBytes, lines, partial, all);
      }
    }

    method Kept() returns (s: Text)
      ensures |s| <= maxBytes && s == Shown(maxBytes, Tail(lines, partial))
    {
      var kept := lines;
      if |partial| > 0 {
        kept := kept + [partial];
      }
      s := TrimRight(Join(kept), LF);
      if |s| > maxBytes {
        s := s[|s| - maxBytes..];
      }
    }
  }

  // When the text depends on how the output was split

  predicate SameText(maxLines: nat, maxBytes: nat, ws: seq<Text>, vs: seq<Text>) {
    Shown(maxBytes, Written(maxLines, maxBytes, ws)) == Shown(maxBytes, Written(maxLines, maxBytes, vs))
  }

  /** The text shown is the same for all ways to split all into writes. */
  ghost predicate SplitIndependent(maxLines: nat, maxBytes: nat, all: Text) {
    forall ws, vs | Concat(ws) == all && Concat(vs) == all :: SameText(maxLines, maxBytes, ws, vs)
  }

  /** No cut of lines at the front, before their carriage returns go, changes what is shown. */
  ghost predicate CutsUnseen(maxLines: nat, maxBytes: nat, all: Text) {
    forall cut | CutLines(maxBytes, cut, Lines(all)) :: TextOf(cut, Rest(all), maxLines, maxBytes) == LastOutput(all, maxLines, maxBytes)
  }

  lemma HeldPlain(maxLines: nat, n: nat, lines: seq<Text>, partial: Text, all: Text)
    requires Holds(maxLines, n, lines, partial, all) && Plain(all, n)
    ensures Shown(n, Tail(lines, partial)) == LastOutput(all, maxLines, n)
  {
    var cut :| HoldsCut(maxLines, n, lines, cut, all);
    HeldShows(maxLines, n, cut, partial, all);
    PlainCutUnseen(maxLines, n, cut, all);
  }

  /** However an output of plain lines is split into writes, its last lines are shown. */
  lemma PlainIsSplitIndependent(maxLines: nat, n: nat, all: Text)
    requires Plain(all, n)
    ensures SplitIndependent(maxLines, n, all)
    ensures forall ws | Concat(ws) == all :: Shown(n, Written(maxLines, n, ws)) == LastOutput(all, maxLines, n)
  {
    forall ws | Concat(ws) == all ensures Shown(n, Written(maxLines, n, ws)) == LastOutput(all, maxLines, n) {
      WrittenHolds(maxLines, n, ws);
      HeldPlain(maxLines, n, Written(maxLines, n, ws).lines, Written(maxLines, n, ws).partial, all);
    }
  }

  lemma CutIsShown(maxLines: nat, n: nat, ws: seq<Text>)
    requires CutsUnseen(maxLines, n, Concat(ws))
    ensures Shown(n, Written(maxLines, n, ws)) == LastOutput(Concat(ws), maxLines, n)
  {
    var t, all := Written(maxLines, n, ws), Concat(ws);
    WrittenHolds(maxLines, n, ws);
    var cut :| HoldsCut(maxLines, n, t.lines, cut, all);
    HeldShows(maxLines, n, cut, t.partial, all);
  }

  // Every cut comes from a split

  /** all without the line that has not ended. */
  function Ended(all: Text): Text {
    all[..|all| - |Rest(all)|]
  }

  lemma {:induction false} EndedIs(all: Text)
    ensures all == Ended(all) + Rest(all) && (Ended(all) != [] ==> Ended(all)[|Ended(all)| - 1] == LF)
  {
    if all != [] && all[|all| - 1] != LF {
      var init := all[..|all| - 1];
      EndedIs(init);
      assert all == init + [all[|all| - 1]];
      assert Ended(all) == Ended(init);
    }
  }

  lemma EndedLines(all: Text)
    ensures Lines(Ended(all)) == Lines(all) && Rest(Ended(all)) == []
  {
    EndedIs(all);
    RestHasNoNewline(all);
    LineGrows(Ended(all), Rest(all));
  }

  /** A line can be cut to a: its first part is a write of its own. */
  lemma LineWritten(maxLines: nat, n: nat, ws: seq<Text>, a: Text, line: Text) returns (ws': seq<Text>)
    requires Cut(n, a, line) && LF !in line && Written(maxLines, n, ws).partial == []
    ensures Concat(ws') == Concat(ws) + line + [LF]
    ensures Written(maxLines, n, ws') == Tail(LastLines(maxLines, Written(maxLines, n, ws).lines + [TrimRight(a, CR)]), [])
  {
    if a == line {
      assert [] + line == line;
      ws' := EndPart(maxLines, n, ws, line);
    } else {
      var x, y := CutPoint(n, a, line);
      ws' := PartsWritten(maxLines, n, ws, x, y, Last(n, x));
    }
  }

  lemma PartsWritten(maxLines: nat, n: nat, ws: seq<Text>, x: Text, y: Text, z: Text) returns (ws': seq<Text>)
    requires LF !in x && LF !in z + y && z == Last(n, x) && Written(maxLines, n, ws).partial == []
    ensures Concat(ws') == Concat(ws) + (x + y) + [LF]
    ensures Written(maxLines, n, ws') == Tail(LastLines(maxLines, Written(maxLines, n, ws).lines + [TrimRight(z + y, CR)]), [])
  {
    var ws1 := FirstPart(maxLines, n, ws, x);
    ws' := EndPart(maxLines, n, ws1, y);
    Regroup(Concat(ws), x, y);
  }

  lemma CutPoint(n: nat, a: Text, line: Text) returns (x: Text, y: Text)
    requires Cut(n, a, line) && a != line && LF !in line
    ensures line == x + y && a == Last(n, x) + y && LF !in x && LF !in a
  {
    var p := |line| - (|a| - n);
    x, y := line[..p], line[p..];
    CutHas(n, a, line);
  }

  lemma EndPart(maxLines: nat, n: nat, ws: seq<Text>, y: Text) returns (ws': seq<Text>)
    requires LF !in Written(maxLines, n, ws).partial + y
    ensures Concat(ws') == Concat(ws) + y + [LF]
    ensures var t := Written(maxLines, n, ws);
            Written(maxLines, n, ws') == Tail(LastLines(maxLines, t.lines + [TrimRight(t.partial + y, CR)]), [])
  {
    ws' := ws + [y + [LF]];
    WrittenMore(maxLines, n, ws, y + [LF]);
    WroteEnd(maxLines, n, Written(maxLines, n, ws), y);
    assert Concat(ws) + (y + [LF]) == Concat(ws) + y + [LF];
  }

  lemma FirstPart(maxLines: nat, n: nat, ws: seq<Text>, x: Text) returns (ws': seq<Text>)
    requires LF !in x && Written(maxLines, n, ws).partial == []
    ensures Concat(ws') == Concat(ws) + x && Written(maxLines, n, ws') == Tail(Written(maxLines, n, ws).lines, Last(n, x))
  {
    ws' := ws + [x];
    WrittenMore(maxLines, n, ws, x);
    WroteNone(maxLines, n, Written(maxLines, n, ws), x);
  }

  lemma WrittenMore(maxLines: nat, n: nat, ws: seq<Text>, p: Text)
    ensures Concat(ws + [p]) == Concat(ws) + p
    ensures Written(maxLines, n, ws + [p]) == Wrote(maxLines, n, Written(maxLines, n, ws), p)
  {
    assert (ws + [p])[..|ws|] == ws;
  }

  lemma WroteNone(maxLines: nat, n: nat, t: Tail, p: Text)
    requires LF !in p && t.partial == []
    ensures Wrote(maxLines, n, t, p) == Tail(t.lines, Last(n, p))
  {
    assert [] + p == p;
    TakeNone(maxLines, Tail(t.lines, p));
  }

  lemma WroteEnd(maxLines: nat, n: nat, t: Tail, p: Text)
    requires LF !in t.partial + p
    ensures Wrote(maxLines, n, t, p + [LF]) == Tail(LastLines(maxLines, t.lines + [TrimRight(t.partial + p, CR)]), [])
  {
    assert t.partial + (p + [LF]) == t.partial + p + [LF];
    TakeOne(maxLines, t.lines, t.partial + p);
  }

  /** For every cut of the lines there is a split of the output that makes it. */
  lemma {:induction false} CutIsWritten(maxLines: nat, n: nat, all: Text, cut: seq<Text>) returns (ws: seq<Text>)
    requires CutLines(n, cut, Lines(all))
    ensures Concat(ws) == all && Written(maxLines, n, ws) == Tail(LastLines(maxLines, Trimmed(cut)), Last(n, Rest(all)))
  {
    EndedIs(all);
    EndedLines(all);
    RestHasNoNewline(all);
    ws := EndedIsWritten(maxLines, n, Ended(all), cut);
    WrittenMore(maxLines, n, ws, Rest(all));
    WroteNone(maxLines, n, Written(maxLines, n, ws), Rest(all));
    ws := ws + [Rest(all)];
  }

  lemma {:induction false} EndedIsWritten(maxLines: nat, n: nat, all: Text, cut: seq<Text>) returns (ws: seq<Text>)
    requires CutLines(n, cut, Lines(all)) && Rest(all) == []
    ensures Concat(ws) == all && Written(maxLines, n, ws) == Tail(LastLines(maxLines, Trimmed(cut)), [])
    decreases |all|
  {
    if all == [] {
      ws := [];
    } else {
      var before, line := LastLineOf(all);
      var init, a := cut[..|cut| - 1], cut[|cut| - 1];
      ws := EndedIsWritten(maxLines, n, before, init);
      assert Cut(n, a, Lines(all)[|cut| - 1]);
      ws := LineWritten(maxLines, n, ws, a, line);
      LastLinesPush(maxLines, Trimmed(init), TrimRight(a, CR));
    }
  }

  lemma LastLineOf(all: Text) returns (before: Text, line: Text)
    requires all != [] && Rest(all) == []
    ensures all == before + line + [LF] && |before| < |all| && LF !in line
    ensures Rest(before) == [] && Lines(all) == Lines(before) + [line]
  {
    assert all[|all| - 1] == LF;
    var init := all[..|all| - 1];
    EndedIs(init);
    EndedLines(init);
    RestHasNoNewline(init);
    before, line := Ended(init), Rest(init);
    assert all == init + [LF];
  }

  /** What is shown does not depend on the split if and only if no cut of lines can be seen in it. */
  lemma SplitIndependentExactly(maxLines: nat, n: nat, all: Text)
    ensures SplitIndependent(maxLines, n, all) <==> CutsUnseen(maxLines, n, all)
  {
    if SplitIndependent(maxLines, n, all) {
      var whole := CutIsWritten(maxLines, n, all, Lines(all));
      HeldShows(maxLines, n, Lines(all), Last(n, Rest(all)), all);
      forall cut | CutLines(n, cut, Lines(all))
        ensures TextOf(cut, Rest(all), maxLines, n) == LastOutput(all, maxLines, n)
      {
        var ws := CutIsWritten(maxLines, n, all, cut);
        HeldShows(maxLines, n, cut, Last(n, Rest(all)), all);
        assert SameText(maxLines, n, ws, whole);
      }
    }
    if CutsUnseen(maxLines, n, all) {
      forall ws, vs | Concat(ws) == all && Concat(vs) == all ensures SameText(maxLines, n, ws, vs) {
        CutIsShown(maxLines, n, ws);
        CutIsShown(maxLines, n, vs);
      }
    }
  }

  lemma {:induction false} NoLineEnd(p: Text)
    requires LF !in p
    ensures LineEnd(p) == |p| && LineEnd(p + [LF]) == |p|
  {
    if p != [] {
      NoLineEnd(p[1..]);
      assert (p + [LF])[1..] == p[1..] + [LF];
    }
  }

  lemma TakeNone(maxLines: nat, t: Tail)
    requires LF !in t.partial
    ensures TakeLines(maxLines, t) == t
  {
    NoLineEnd(t.partial);
  }

  lemma TakeOne(maxLines: nat, lines: seq<Text>, p: Text)
    requires LF !in p
    ensures TakeLines(maxLines, Tail(lines, p + [LF])) == Tail(LastLines(maxLines, lines + [TrimRight(p, CR)]), [])
  {
    NoLineEnd(p);
    assert (p + [LF])[..|p|] == p && (p + [LF])[|p| + 1..] == [];
    TakeNone(maxLines, Tail(LastLines(maxLines, lines + [TrimRight(p, CR)]), []));
  }

  lemma LineShown(maxLines: nat, n: nat, a: Text)
    requires LF !in a
    ensures Shown(n, Tail(LastLines(maxLines, [TrimRight(a, CR)]), [])) == if maxLines == 0 then [] else Last(n, TrimRight(a, CR))
  {
    TrimKeepsOut(a);
    var x := TrimRight(a, CR);
    assert x != [] ==> x[|x| - 1] in x;
  }

  predicate OnlyReturns(line: Text) {
    forall c | c in line :: c == CR
  }

  lemma {:induction false} TrimReturns(line: Text)
    ensures OnlyReturns(line) <==> TrimRight(line, CR) == []
  {
    if line != [] {
      var init, c := line[..|line| - 1], line[|line| - 1];
      assert line == init + [c] && c in line;
      if c == CR {
        TrimReturns(init);
        assert forall x | x in line :: x in init || x == CR;
        assert forall x | x in init :: x in line;
      }
    }
  }

  /** What a line that is cut to n bytes shows when its carriage returns go: these count for the n bytes. */
  lemma {:induction false} TrimLast(n: nat, line: Text)
    requires |line| > n
    ensures TrimsTo(n, line)
  {
    if n > 0 && line[|line| - 1] == CR {
      TrimLast(n - 1, line[..|line| - 1]);
      TrimLastReturn(n, line);
    } else {
      TrimLastOther(n, line);
    }
  }

  lemma TrimLastOther(n: nat, line: Text)
    requires |line| > n && (n == 0 || line[|line| - 1] != CR)
    ensures TrimsTo(n, line)
  {
    assert n > 0 ==> Last(n, line)[n - 1] == line[|line| - 1];
  }

  predicate TrimsTo(n: nat, line: Text) {
    var k := |line| - |TrimRight(line, CR)|;
    TrimRight(Last(n, line), CR) == Last(if n <= k then 0 else n - k, TrimRight(line, CR))
  }

  lemma TrimLastReturn(n: nat, line: Text)
    requires 0 < n < |line| && line[|line| - 1] == CR && TrimsTo(n - 1, line[..|line| - 1])
    ensures TrimsTo(n, line)
  {
    var init := line[..|line| - 1];
    assert line == init + [CR] && Last(n, line) == Last(n - 1, init) + [CR];
    TrimReturn(Last(n - 1, init));
    TrimReturn(init);
  }

  lemma TrimReturn(s: Text)
    ensures TrimRight(s + [CR], CR) == TrimRight(s, CR)
  {
    assert (s + [CR])[..|s|] == s;
  }

  /** A line that is longer than the buffer and ends in a carriage return shows less when its newline comes in
      a write of its own. */
  lemma CarriageReturnShowsSplit(maxLines: nat, n: nat, line: Text)
    requires maxLines > 0 && n > 0 && LF !in line && !PlainLine(n, line) && !OnlyReturns(line)
    ensures var whole := Shown(n, Written(maxLines, n, [line + [LF]]));
            var split := Shown(n, Written(maxLines, n, [line, [LF]]));
            && whole == Last(n, TrimRight(line, CR)) && split == TrimRight(Last(n, line), CR) && |split| < |whole|
  {
    TrimReturns(line);
    WholeLine(maxLines, n, line);
    LineThenEnd(maxLines, n, line);
    TrimLast(n, line);
  }

  lemma WholeLine(maxLines: nat, n: nat, line: Text)
    requires maxLines > 0 && LF !in line
    ensures Shown(n, Written(maxLines, n, [line + [LF]])) == Last(n, TrimRight(line, CR))
  {
    var ws := [line + [LF]];
    assert ws[..0] == [] && [] + (line + [LF]) == line + [LF];
    TakeOne(maxLines, [], line);
    assert [] + [TrimRight(line, CR)] == [TrimRight(line, CR)];
    LineShown(maxLines, n, line);
  }

  lemma LineThenEnd(maxLines: nat, n: nat, line: Text)
    requires maxLines > 0 && LF !in line
    ensures Shown(n, Written(maxLines, n, [line, [LF]])) == Last(n, TrimRight(Last(n, line), CR))
  {
    var ws, a := [line, [LF]], Last(n, line);
    assert ws[..1] == [line] && [line][..0] == [] && [] + line == line;
    TakeNone(maxLines, Tail([], line));
    assert Written(maxLines, n, [line]) == Tail([], a);
    TakeOne(maxLines, [], a);
    assert [] + [TrimRight(a, CR)] == [TrimRight(a, CR)];
    LineShown(maxLines, n, a);
  }

  /** What an output of one line shows is the same for all ways to split it into writes exactly when the
      line, if it ends in a carriage return, fits the buffer or is nothing but carriage returns. */
  lemma OneLineSplitIndependent(maxLines: nat, n: nat, line: Text)
    requires LF !in line
    ensures SplitIndependent(maxLines, n, line + [LF])
       <==> maxLines == 0 || n == 0 || PlainLine(n, line) || OnlyReturns(line)
  {
    SplitIndependentExactly(maxLines, n, line + [LF]);
    if maxLines == 0 || n == 0 || PlainLine(n, line) || OnlyReturns(line) {
      OneCutsUnseen(maxLines, n, line);
    } else {
      OneCutSeen(maxLines, n, line);
    }
  }

  lemma OneCutsUnseen(maxLines: nat, n: nat, line: Text)
    requires LF !in line && (maxLines == 0 || n == 0 || PlainLine(n, line) || OnlyReturns(line))
    ensures CutsUnseen(maxLines, n, line + [LF])
  {
    OneLineIs(line);
    forall cut | CutLines(n, cut, Lines(line + [LF]))
      ensures TextOf(cut, Rest(line + [LF]), maxLines, n) == LastOutput(line + [LF], maxLines, n)
    {
      OneCutUnseen(maxLines, n, cut, line);
    }
  }

  lemma OneCut(n: nat, line: Text)
    ensures CutLines(n, [Last(n, line)], [line])
  {
    CutToLast(n, line, line);
  }

  lemma OneLineIs(line: Text)
    requires LF !in line
    ensures Lines(line + [LF]) == [line] && Rest(line + [LF]) == []
  {
    LineEnds([], line);
    assert [] + line + [LF] == line + [LF];
  }

  lemma OneText(maxLines: nat, n: nat, a: Text)
    requires LF !in a
    ensures TextOf([a], [], maxLines, n) == if maxLines == 0 then [] else Last(n, TrimRight(a, CR))
  {
    assert [a][..0] == [] && Trimmed([a]) == [TrimRight(a, CR)];
    LineShown(maxLines, n, a);
  }

  lemma OneCutUnseen(maxLines: nat, n: nat, cut: seq<Text>, line: Text)
    requires LF !in line && CutLines(n, cut, [line])
    requires maxLines == 0 || n == 0 || PlainLine(n, line) || OnlyReturns(line)
    ensures TextOf(cut, [], maxLines, n) == TextOf([line], [], maxLines, n)
  {
    var a := cut[0];
    assert cut == [a] && Cut(n, a, line);
    CutHas(n, a, line);
    OneText(maxLines, n, a);
    OneText(maxLines, n, line);
    if PlainLine(n, line) {
      CutTrims(n, a, line);
      CutMeansLast(n, TrimRight(a, CR), TrimRight(line, CR));
    } else if OnlyReturns(line) {
      TrimReturns(a);
      TrimReturns(line);
    }
  }

  lemma OneCutSeen(maxLines: nat, n: nat, line: Text)
    requires maxLines > 0 && n > 0 && LF !in line && !PlainLine(n, line) && !OnlyReturns(line)
    ensures !CutsUnseen(maxLines, n, line + [LF])
  {
    var a := Last(n, line);
    OneLineIs(line);
    OneCut(n, line);
    CutToLast(n, line, line);
    CutHas(n, a, line);
    OneText(maxLines, n, a);
    OneText(maxLines, n, line);
    LastIsShorter(n, line);
  }

  lemma LastIsShorter(n: nat, line: Text)
    requires n > 0 && !PlainLine(n, line) && !OnlyReturns(line)
    ensures |TrimRight(Last(n, line), CR)| < |Last(n, TrimRight(line, CR))|
  {
    TrimReturns(line);
    TrimLast(n, line);
  }

  // Any number of lines

  /** A line that can be cut where it shows: too long, and ending in a carriage return. */
  predicate Long(n: nat, line: Text) {
    !PlainLine(n, line) && !OnlyReturns(line)
  }

  /** The number of carriage returns at its end. */
  function Returns(line: Text): nat {
    |line| - |TrimRight(line, CR)|
  }

  /** The lines i and later that are looked at, and the one that has not ended, without empty ones at the end. */
  function AfterLine(lines: seq<Text>, rest: Text, i: nat): seq<Text>
    requires i < |lines|
  {
    WithoutEmptyEnd(WithRest(Trimmed(lines[i + 1..]), rest))
  }

  /** What is shown after line i. */
  function ShownAfter(after: seq<Text>): Text {
    if after == [] then [] else [LF] + Join(after)
  }

  function BeforeLine(maxLines: nat, lines: seq<Text>, i: nat): seq<Text>
    requires i < |lines| <= i + maxLines
  {
    Trimmed(lines[if |lines| <= maxLines then 0 else |lines| - maxLines..i])
  }

  lemma TrimmedFrom(lines: seq<Text>, lo: nat)
    requires lo <= |lines|
    ensures |Trimmed(lines)| == |lines| && Trimmed(lines[lo..]) == Trimmed(lines)[lo..]
  {
    TrimmedAt(lines);
    TrimmedAt(lines[lo..]);
  }

  lemma LastTrimmed(k: nat, lines: seq<Text>)
    ensures LastLines(k, Trimmed(lines)) == Trimmed(LastLines(k, lines))
  {
    TrimmedFrom(lines, if |lines| <= k then 0 else |lines| - k);
  }

  lemma {:induction false} TrimmedConcat(a: seq<Text>, b: seq<Text>)
    ensures Trimmed(a + b) == Trimmed(a) + Trimmed(b)
  {
    if b == [] {
      assert a + b == a;
    } else {
      assert (a + b)[..|a + b| - 1] == a + b[..|b| - 1];
      TrimmedConcat(a, b[..|b| - 1]);
    }
  }

  lemma TrimmedAround(before: seq<Text>, line: Text, later: seq<Text>)
    ensures Trimmed(before + [line] + later) == Trimmed(before) + [TrimRight(line, CR)] + Trimmed(later)
  {
    TrimmedConcat(before + [line], later);
    TrimmedPush(before, line);
  }

  lemma LastLinesAround(k: nat, s: seq<Text>, i: nat)
    requires i < |s| <= i + k
    ensures LastLines(k, s) == s[if |s| <= k then 0 else |s| - k..i] + [s[i]] + s[i + 1..]
  {
  }

  lemma WindowAround(maxLines: nat, lines: seq<Text>, i: nat)
    requires i < |lines| <= i + maxLines
    ensures LastLines(maxLines, Trimmed(lines))
         == BeforeLine(maxLines, lines, i) + [TrimRight(lines[i], CR)] + Trimmed(lines[i + 1..])
  {
    LastTrimmed(maxLines, lines);
    LastLinesAround(maxLines, lines, i);
    TrimmedAround(lines[if |lines| <= maxLines then 0 else |lines| - maxLines..i], lines[i], lines[i + 1..]);
  }

  lemma TextAround(maxLines: nat, n: nat, lines: seq<Text>, rest: Text, i: nat)
    requires i < |lines| <= i + maxLines
    ensures TextOf(lines, rest, maxLines, n)
         == Last(n, TrimRight(Join(BeforeLine(maxLines, lines, i) + [TrimRight(lines[i], CR)]
                                   + WithRest(Trimmed(lines[i + 1..]), rest)), LF))
  {
    WindowAround(maxLines, lines, i);
    WithRestAfter(BeforeLine(maxLines, lines, i) + [TrimRight(lines[i], CR)], Trimmed(lines[i + 1..]), rest);
  }

  lemma WithRestAfter(a: seq<Text>, b: seq<Text>, rest: Text)
    ensures WithRest(a + b, rest) == a + WithRest(b, rest)
  {
    assert a + b + [rest] == a + (b + [rest]);
  }

  lemma {:induction false} EmptyEndAfter(a: seq<Text>, b: seq<Text>)
    ensures WithoutEmptyEnd(a + b) == if WithoutEmptyEnd(b) == [] then WithoutEmptyEnd(a) else a + WithoutEmptyEnd(b)
  {
    if b == [] {
      assert a + b == a;
    } else if b[|b| - 1] == [] {
      assert (a + b)[..|a + b| - 1] == a + b[..|b| - 1];
      EmptyEndAfter(a, b[..|b| - 1]);
    }
  }

  lemma {:induction false} JoinConcat(a: seq<Text>, b: seq<Text>)
    requires a != [] && b != []
    ensures Join(a + b) == Join(a) + [LF] + Join(b)
  {
    if |b| == 1 {
      assert (a + b)[..|a|] == a;
    } else {
      var init, last := b[..|b| - 1], b[|b| - 1];
      JoinConcat(a, init);
      assert (a + b)[..|a + b| - 1] == a + init;
      assert Join(a) + [LF] + Join(init) + [LF] + last == Join(a) + [LF] + (Join(init) + [LF] + last);
    }
  }

  /** The text ends with the line and what is shown after it. */
  lemma ShownFrom(pre: seq<Text>, line: Text, follow: seq<Text>)
    requires NoNewlines(pre + [line] + follow) && (line != [] || WithoutEmptyEnd(follow) != [])
    ensures TrimRight(Join(pre + [line] + follow), LF) == Join(pre + [line]) + ShownAfter(WithoutEmptyEnd(follow))
  {
    TrimJoined(pre + [line] + follow);
    EmptyEndAfter(pre + [line], follow);
    var after := WithoutEmptyEnd(follow);
    if after != [] {
      JoinConcat(pre + [line], after);
      Regroup(Join(pre + [line]), [LF], Join(after));
    }
  }

  // A cut that shows

  lemma JoinEnd(pre: seq<Text>, line: Text)
    ensures Join(pre + [line]) == if pre == [] then line else Join(pre) + [LF] + line
  {
    if pre == [] {
      assert pre + [line] == [line];
    } else {
      JoinConcat(pre, [line]);
    }
  }

  /** x stops or has a newline where y has another byte, j bytes before z. */
  lemma ByteSeen(n: nat, x: Text, y: Text, z: Text, j: nat)
    requires |x| == j || (|x| > j && x[|x| - 1 - j] == LF)
    requires |y| > j && y[|y| - 1 - j] != LF && j + |z| < n
    ensures Last(n, x + z) != Last(n, y + z)
  {
    var a, b := Last(n, x + z), Last(n, y + z);
    assert |b| > j + |z| && b[|b| - 1 - j - |z|] == y[|y| - 1 - j];
    if |x| > j {
      assert a[|a| - 1 - j - |z|] == x[|x| - 1 - j];
    }
  }

  lemma ShorterLineSeen(n: nat, pre: seq<Text>, line: Text, j: nat, z: Text)
    requires j < |line| && LF !in line && j + |z| < n
    ensures Last(n, Join(pre + [Last(j, line)]) + z) != Last(n, Join(pre + [line]) + z)
  {
    JoinEnd(pre, line);
    JoinEnd(pre, Last(j, line));
    assert line[|line| - 1 - j] in line;
    ByteSeen(n, Join(pre + [Last(j, line)]), Join(pre + [line]), z, j);
  }

  /** The line loses its front where that can be seen. */
  lemma CutSeen(maxLines: nat, n: nat, lines: seq<Text>, rest: Text, i: nat, a: Text, j: nat)
    requires i < |lines| <= i + maxLines && NoNewlines(lines) && LF !in rest && LF !in a
    requires var line := TrimRight(lines[i], CR); j < |line| && TrimRight(a, CR) == Last(j, line)
    requires var after := AfterLine(lines, rest, i); (after != [] || j > 0) && j + |ShownAfter(after)| < n
    ensures TextOf(lines[i := a], rest, maxLines, n) != TextOf(lines, rest, maxLines, n)
  {
    assert lines[i] in lines && lines[i := lines[i]] == lines;
    CutText(maxLines, n, lines, rest, i, lines[i]);
    CutText(maxLines, n, lines, rest, i, a);
    TrimKeepsOut(lines[i]);
    ShorterLineSeen(n, BeforeLine(maxLines, lines, i), TrimRight(lines[i], CR), j, ShownAfter(AfterLine(lines, rest, i)));
  }

  lemma LongSeen(maxLines: nat, n: nat, all: Text, i: nat, len: nat, j: nat)
    requires var lines := Lines(all); i < |lines| <= i + maxLines && Long(n, lines[i]) && n <= len < |lines[i]|
    requires var k := Returns(Lines(all)[i]); j == if len <= k then 0 else len - k
    requires var after := AfterLine(Lines(all), Rest(all), i); (after != [] || j > 0) && j + |ShownAfter(after)| < n
    ensures !CutsUnseen(maxLines, n, all)
  {
    var lines, line, a := Lines(all), Lines(all)[i], Last(len, Lines(all)[i]);
    LinesHaveNoNewline(all);
    assert line in lines;
    CutHas(len, a, line);
    LongCut(n, line, len);
    OneLineCut(n, lines, i, len);
    CutSeen(maxLines, n, lines, Rest(all), i, a, j);
    SeenCut(maxLines, n, all, lines[i := a]);
  }

  lemma LongCut(n: nat, line: Text, len: nat)
    requires Long(n, line) && len < |line|
    ensures var k := Returns(line);
            var j := if len <= k then 0 else len - k;
            TrimRight(Last(len, line), CR) == Last(j, TrimRight(line, CR)) && j < |TrimRight(line, CR)|
  {
    TrimLast(len, line);
    TrimReturns(line);
  }

  lemma SeenCut(maxLines: nat, n: nat, all: Text, cut: seq<Text>)
    requires CutLines(n, cut, Lines(all)) && TextOf(cut, Rest(all), maxLines, n) != TextOf(Lines(all), Rest(all), maxLines, n)
    ensures !CutsUnseen(maxLines, n, all)
  {
  }

  lemma OneLineCut(n: nat, lines: seq<Text>, i: nat, len: nat)
    requires i < |lines| && n <= len < |lines[i]|
    ensures CutLines(n, lines[i := Last(len, lines[i])], lines)
  {
  }

  /** The text with line i replaced. */
  lemma CutText(maxLines: nat, n: nat, lines: seq<Text>, rest: Text, i: nat, a: Text)
    requires i < |lines| <= i + maxLines && NoNewlines(lines) && LF !in rest && LF !in a
    requires TrimRight(a, CR) != [] || AfterLine(lines, rest, i) != []
    ensures TextOf(lines[i := a], rest, maxLines, n)
         == Last(n, Join(BeforeLine(maxLines, lines, i) + [TrimRight(a, CR)]) + ShownAfter(AfterLine(lines, rest, i)))
  {
    SamePlaces(maxLines, lines, i, a);
    TextAround(maxLines, n, lines[i := a], rest, i);
    PartsHaveNoNewline(maxLines, lines, rest, i, a);
    ShownFrom(BeforeLine(maxLines, lines, i), TrimRight(a, CR), WithRest(Trimmed(lines[i + 1..]), rest));
  }

  lemma SamePlaces(maxLines: nat, lines: seq<Text>, i: nat, a: Text)
    requires i < |lines| <= i + maxLines
    ensures var cut := lines[i := a]; BeforeLine(maxLines, cut, i) == BeforeLine(maxLines, lines, i) && cut[i + 1..] == lines[i + 1..]
  {
    var cut := lines[i := a];
    var off := if |lines| <= maxLines then 0 else |lines| - maxLines;
    assert cut[off..i] == lines[off..i] && cut[i + 1..] == lines[i + 1..];
  }

  lemma PartsHaveNoNewline(maxLines: nat, lines: seq<Text>, rest: Text, i: nat, a: Text)
    requires i < |lines| <= i + maxLines && NoNewlines(lines) && LF !in rest && LF !in a
    ensures NoNewlines(BeforeLine(maxLines, lines, i) + [TrimRight(a, CR)] + WithRest(Trimmed(lines[i + 1..]), rest))
  {
    TrimKeepsOut(a);
    var off := if |lines| <= maxLines then 0 else |lines| - maxLines;
    SomeHaveNoNewline(lines[off..i]);
    SomeHaveNoNewline(lines[i + 1..]);
  }

  lemma SomeHaveNoNewline(lines: seq<Text>)
    requires NoNewlines(lines)
    ensures NoNewlines(Trimmed(lines))
  {
    CutKeepsOut(0, lines, lines);
  }

  // Cuts that do not show

  lemma NotLongCut(n: nat, a: Text, line: Text)
    requires Cut(n, a, line) && !Long(n, line)
    ensures Cut(n, TrimRight(a, CR), TrimRight(line, CR))
  {
    if PlainLine(n, line) {
      CutTrims(n, a, line);
    } else {
      CutHas(n, a, line);
      TrimReturns(a);
      TrimReturns(line);
    }
  }

  lemma NotLongCuts(n: nat, cut: seq<Text>, lines: seq<Text>)
    requires CutLines(n, cut, lines) && forall line | line in lines :: !Long(n, line)
    ensures CutLines(n, Trimmed(cut), Trimmed(lines))
  {
    TrimmedAt(cut);
    TrimmedAt(lines);
    forall i | 0 <= i < |lines| ensures Cut(n, Trimmed(cut)[i], Trimmed(lines)[i]) {
      assert lines[i] in lines && Cut(n, cut[i], lines[i]);
      NotLongCut(n, cut[i], lines[i]);
    }
  }

  /** A line with the lines after it, and their cuts. */
  lemma RestCut(n: nat, cut: seq<Text>, lines: seq<Text>, rest: Text)
    requires n > 0 && CutLines(n, cut, lines) && forall line | line in lines :: !Long(n, line)
    ensures CutLines(n, WithoutEmptyEnd(WithRest(Trimmed(cut), rest)), WithoutEmptyEnd(WithRest(Trimmed(lines), rest)))
  {
    NotLongCuts(n, cut, lines);
    WithoutEmptyEndCut(n, WithRest(Trimmed(cut), rest), WithRest(Trimmed(lines), rest));
  }

  /** What is shown after the line covers a cut that leaves all but its last bytes. */
  lemma CoveredEnds(n: nat, x: Text, y: Text, f: Text, g: Text)
    requires Alike(n, f, g) && (n <= |g| + 1 || Last(n - |g| - 1, x) == Last(n - |g| - 1, y))
    ensures Last(n, x + ([LF] + f)) == Last(n, y + ([LF] + g))
  {
    LastOfConcat(n, x, [LF] + f);
    LastOfConcat(n, y, [LF] + g);
    LastOfConcat(n, [LF], f);
    LastOfConcat(n, [LF], g);
  }

  lemma LastOfJoined(m: nat, pre: seq<Text>, line: Text)
    requires m <= |line|
    ensures Last(m, Join(pre + [line])) == Last(m, line)
  {
    JoinEnd(pre, line);
    if pre != [] {
      LastOfConcat(m, Join(pre) + [LF], line);
    }
  }

  /** The carriage returns of the line take up at most d of the n bytes that a cut leaves. */
  lemma CoveredLine(n: nat, a: Text, line: Text, d: nat)
    requires Cut(n, a, line) && Long(n, line) && Returns(line) <= d < n
    ensures var x, y := TrimRight(a, CR), TrimRight(line, CR);
            n - d <= |x| && n - d <= |y| && Last(n - d, x) == Last(n - d, y)
  {
    if a != line {
      assert a == Last(|a|, line);
      LongCut(n, line, |a|);
      LastOfLast(n - d, |a| - Returns(line), TrimRight(line, CR));
    }
  }

  /** Line i is the last one of those looked at that is long. */
  predicate LastLong(maxLines: nat, n: nat, lines: seq<Text>, i: nat) {
    && i < |lines| <= i + maxLines && Long(n, lines[i]) && forall j | i < j < |lines| :: !Long(n, lines[j])
  }

  lemma CoveredJoined(n: nat, pre: seq<Text>, pre': seq<Text>, a: Text, line: Text, f: seq<Text>, g: seq<Text>)
    requires Cut(n, a, line) && Long(n, line) && CutLines(n, f, g) && g != []
    requires n <= |Join(g)| + 1 || Returns(line) <= |Join(g)| + 1
    ensures Last(n, Join(pre' + [TrimRight(a, CR)]) + ShownAfter(f)) == Last(n, Join(pre + [TrimRight(line, CR)]) + ShownAfter(g))
  {
    JoinAlike(n, f, g);
    CoveredBefore(n, pre, pre', a, line, |Join(g)| + 1);
    CoveredEnds(n, Join(pre' + [TrimRight(a, CR)]), Join(pre + [TrimRight(line, CR)]), Join(f), Join(g));
  }

  lemma CoveredBefore(n: nat, pre: seq<Text>, pre': seq<Text>, a: Text, line: Text, d: nat)
    requires Cut(n, a, line) && Long(n, line) && (n <= d || Returns(line) <= d)
    ensures n <= d || Last(n - d, Join(pre' + [TrimRight(a, CR)])) == Last(n - d, Join(pre + [TrimRight(line, CR)]))
  {
    if d < n {
      CoveredLine(n, a, line, d);
      LastOfJoined(n - d, pre', TrimRight(a, CR));
      LastOfJoined(n - d, pre, TrimRight(line, CR));
    }
  }

  lemma CoveredText(maxLines: nat, n: nat, lines: seq<Text>, rest: Text, i: nat, cut: seq<Text>)
    requires n > 0 && LastLong(maxLines, n, lines, i) && CutLines(n, cut, lines) && NoNewlines(lines) && LF !in rest
    requires var after := AfterLine(lines, rest, i);
             after != [] && (n <= |ShownAfter(after)| || Returns(lines[i]) <= |ShownAfter(after)|)
    ensures TextOf(cut, rest, maxLines, n) == TextOf(lines, rest, maxLines, n)
  {
    AfterCut(n, lines, rest, i, cut);
    CutKeepsOut(n, cut, lines);
    ShownAround(maxLines, n, lines, rest, i);
    ShownAround(maxLines, n, cut, rest, i);
    assert Cut(n, cut[i], lines[i]);
    CoveredJoined(n, BeforeLine(maxLines, lines, i), BeforeLine(maxLines, cut, i), cut[i], lines[i],
                  AfterLine(cut, rest, i), AfterLine(lines, rest, i));
  }

  lemma AfterCut(n: nat, lines: seq<Text>, rest: Text, i: nat, cut: seq<Text>)
    requires n > 0 && i < |lines| && CutLines(n, cut, lines) && forall j | i < j < |lines| :: !Long(n, lines[j])
    ensures CutLines(n, AfterLine(cut, rest, i), AfterLine(lines, rest, i))
  {
    RestCut(n, cut[i + 1..], lines[i + 1..], rest);
  }

  lemma ShownAround(maxLines: nat, n: nat, lines: seq<Text>, rest: Text, i: nat)
    requires i < |lines| <= i + maxLines && NoNewlines(lines) && LF !in rest && AfterLine(lines, rest, i) != []
    ensures TextOf(lines, rest, maxLines, n)
         == Last(n, Join(BeforeLine(maxLines, lines, i) + [TrimRight(lines[i], CR)]) + ShownAfter(AfterLine(lines, rest, i)))
  {
    assert lines[i] in lines && lines[i := lines[i]] == lines;
    CutText(maxLines, n, lines, rest, i, lines[i]);
  }

  // The condition on the lines

  /** Whether the text depends on the split is decided by the last long line of those looked at. It does not
      if and only if what is shown after the line takes up the tail, or as much of it as the line has carriage
      returns. Where nothing is shown after it, the line is to keep a byte and lose one when it is cut. */
  lemma LastLongDecides(maxLines: nat, n: nat, all: Text, i: nat)
    requires n > 0 && LastLong(maxLines, n, Lines(all), i)
    requires var line := Lines(all)[i];
             AfterLine(Lines(all), Rest(all), i) != [] || Returns(line) < n || (n >= 2 && |TrimRight(line, CR)| >= 2)
    ensures var d := |ShownAfter(AfterLine(Lines(all), Rest(all), i))|;
            SplitIndependent(maxLines, n, all) <==> n <= d || Returns(Lines(all)[i]) <= d
  {
    var lines, line := Lines(all), Lines(all)[i];
    var after, k := AfterLine(lines, Rest(all), i), Returns(line);
    SplitIndependentExactly(maxLines, n, all);
    LongHas(n, line);
    if n <= |ShownAfter(after)| || k <= |ShownAfter(after)| {
      LinesHaveNoNewline(all);
      forall cut | CutLines(n, cut, lines) ensures TextOf(cut, Rest(all), maxLines, n) == LastOutput(all, maxLines, n) {
        CoveredText(maxLines, n, lines, Rest(all), i, cut);
      }
    } else if after != [] || k < n {
      LongSeen(maxLines, n, all, i, n, if n <= k then 0 else n - k);
    } else {
      LongSeen(maxLines, n, all, i, k + 1, 1);
    }
  }

  lemma LongHas(n: nat, line: Text)
    requires Long(n, line)
    ensures Returns(line) >= 1 && TrimRight(line, CR) != [] && |line| > n
  {
    TrimReturns(line);
  }

  predicate NoLongLine(maxLines: nat, n: nat, lines: seq<Text>) {
    forall i | 0 <= i < |lines| && |lines| <= i + maxLines :: !Long(n, lines[i])
  }

  /** If none of the lines looked at is long, the text does not depend on the split. */
  lemma NoneLong(maxLines: nat, n: nat, all: Text)
    requires NoLongLine(maxLines, n, Lines(all))
    ensures SplitIndependent(maxLines, n, all)
  {
    SplitIndependentExactly(maxLines, n, all);
    forall cut | CutLines(n, cut, Lines(all)) ensures TextOf(cut, Rest(all), maxLines, n) == LastOutput(all, maxLines, n) {
      NoneLongUnseen(maxLines, n, all, cut);
    }
  }

  lemma NoneLongUnseen(maxLines: nat, n: nat, all: Text, cut: seq<Text>)
    requires NoLongLine(maxLines, n, Lines(all))
    requires CutLines(n, cut, Lines(all))
    ensures TextOf(cut, Rest(all), maxLines, n) == LastOutput(all, maxLines, n)
  {
    var lines := Lines(all);
    LinesHaveNoNewline(all);
    WindowCut(maxLines, n, cut, lines);
    CutKeepsOut(n, cut, lines);
    WindowShows(maxLines, n, cut, lines, Rest(all));
  }

  lemma WindowCut(maxLines: nat, n: nat, cut: seq<Text>, lines: seq<Text>)
    requires CutLines(n, cut, lines) && NoLongLine(maxLines, n, lines)
    ensures CutLines(n, LastLines(maxLines, Trimmed(cut)), LastLines(maxLines, Trimmed(lines)))
  {
    LastTrimmed(maxLines, cut);
    LastTrimmed(maxLines, lines);
    CutLinesLast(n, maxLines, cut, lines);
    LastAreNotLong(maxLines, n, lines);
    NotLongCuts(n, LastLines(maxLines, cut), LastLines(maxLines, lines));
  }

  lemma LastAreNotLong(maxLines: nat, n: nat, lines: seq<Text>)
    requires NoLongLine(maxLines, n, lines)
    ensures forall line | line in LastLines(maxLines, lines) :: !Long(n, line)
  {
  }

  lemma WindowShows(maxLines: nat, n: nat, cut: seq<Text>, lines: seq<Text>, rest: Text)
    requires CutLines(n, LastLines(maxLines, Trimmed(cut)), LastLines(maxLines, Trimmed(lines)))
    requires NoNewlines(cut) && NoNewlines(lines) && LF !in rest
    ensures TextOf(cut, rest, maxLines, n) == TextOf(lines, rest, maxLines, n)
  {
    SomeHaveNoNewline(cut);
    SomeHaveNoNewline(lines);
    var a, s := LastLines(maxLines, Trimmed(cut)), LastLines(maxLines, Trimmed(lines));
    assert forall line | line in a :: line in Trimmed(cut);
    assert forall line | line in s :: line in Trimmed(lines);
    if n > 0 {
      CutLinesLookAlike(n, WithRest(a, rest), WithRest(s, rest));
    }
  }

  /** Where the line can be cut to nothing, or to all that is shown of it, what is left of the lines before it
      can look the same: then the line alone does not decide. */
  lemma EarlierLinesDecide(maxLines: nat, x: byte, c: byte)
    requires maxLines >= 2 && x != LF && x != CR && c != LF && c != CR
    ensures SplitIndependent(maxLines, 1, [x] + [LF] + [c, CR] + [LF]) <==> x == c
  {
    var all := [x] + [LF] + [c, CR] + [LF];
    TwoLines([x], [c, CR]);
    SplitIndependentExactly(maxLines, 1, all);
    KeptText(maxLines, x, c);
    LostText(maxLines, x);
    if x == c {
      forall cut | CutLines(1, cut, [[x], [c, CR]]) ensures TextOf(cut, [], maxLines, 1) == [c] {
        TwoCuts(x, c, cut);
      }
    } else {
      assert CutLines(1, [[x], [CR]], [[x], [c, CR]]) by { TwoCut(x, c); }
      SeenCut(maxLines, 1, all, [[x], [CR]]);
    }
  }

  lemma TwoLines(a: Text, b: Text)
    requires LF !in a && LF !in b
    ensures Lines(a + [LF] + b + [LF]) == [a, b] && Rest(a + [LF] + b + [LF]) == []
  {
    OneLineIs(a);
    LineEnds(a + [LF], b);
    assert [] + b == b && [a] + [b] == [a, b];
  }

  lemma TwoTrimmed(x: byte, a: Text)
    requires x != CR
    ensures Trimmed([[x], a]) == [[x], TrimRight(a, CR)]
  {
    TrimmedPush([[x]], a);
    TrimmedPush([], [x]);
    assert [] + [[x]] == [[x]] && [[x]] + [a] == [[x], a];
    assert TrimRight([x], CR) == [x];
    assert [[x]] + [TrimRight(a, CR)] == [[x], TrimRight(a, CR)];
  }

  lemma TwoJoined(x: byte, a: Text)
    ensures Join([[x], a]) == [x] + [LF] + a
  {
    JoinEnd([[x]], a);
    assert [[x]] + [a] == [[x], a];
  }

  lemma KeptText(maxLines: nat, x: byte, c: byte)
    requires maxLines >= 2 && x != CR && c != LF && c != CR
    ensures TextOf([[x], [c, CR]], [], maxLines, 1) == [c]
  {
    TwoTrimmed(x, [c, CR]);
    assert [c, CR][..1] == [c] && TrimRight([c, CR], CR) == TrimRight([c], CR) == [c];
    TwoJoined(x, [c]);
  }

  lemma LostText(maxLines: nat, x: byte)
    requires maxLines >= 2 && x != LF && x != CR
    ensures TextOf([[x], [CR]], [], maxLines, 1) == [x]
  {
    TwoTrimmed(x, [CR]);
    assert [CR][..0] == [] && TrimRight([CR], CR) == [];
    TwoJoined(x, []);
    assert ([x] + [LF] + [])[..1] == [x] && TrimRight([x] + [LF] + [], LF) == TrimRight([x], LF) == [x];
  }

  lemma TwoCut(x: byte, c: byte)
    ensures CutLines(1, [[x], [CR]], [[x], [c, CR]])
  {
    assert [CR] == [c, CR][1..];
  }

  lemma TwoCuts(x: byte, c: byte, cut: seq<Text>)
    requires CutLines(1, cut, [[x], [c, CR]])
    ensures cut == [[x], [c, CR]] || cut == [[x], [CR]]
  {
    assert Cut(1, cut[0], [x]) && Cut(1, cut[1], [c, CR]);
    assert cut == [cut[0], cut[1]];
  }

  // Outputs without carriage returns

  function Newlines(s: Text): nat {
    if s == [] then 0 else Newlines(s[..|s| - 1]) + if s[|s| - 1] == LF then 1 else 0
  }

  lemma {:induction false} NewlinesAreLines(s: Text)
    ensures |Lines(s)| == Newlines(s)
  {
    if s != [] { NewlinesAreLines(s[..|s| - 1]); }
  }

  /** Joined again, the lines are the text, but for the newline that ends the last of them. */
  lemma {:induction false} LinesJoined(s: Text)
    ensures var joined := Join(WithRest(Lines(s), Rest(s)));
            if Rest(s) != [] || s == [] then joined == s else joined + [LF] == s
  {
    if s != [] {
      var init, c := s[..|s| - 1], s[|s| - 1];
      assert s == init + [c];
      LinesJoined(init);
      JoinEnd(Lines(init), Rest(init));
      EndedIs(init);
      if c != LF {
        JoinEnd(Lines(init), Rest(init) + [c]);
        NextByte(Lines(init), Rest(init), init, c);
      } else {
        if Rest(init) == [] && Lines(init) == [] { NoLines(init); }
      }
    }
  }

  lemma NextByte(lines: seq<Text>, rest: Text, init: Text, c: byte)
    requires if lines == [] then rest == init else Join(lines) + [LF] + rest == init
    ensures (if lines == [] then rest + [c] else Join(lines) + [LF] + (rest + [c])) == init + [c]
  {
  }

  lemma NoLines(s: Text)
    requires Rest(s) == [] && Lines(s) == []
    ensures s == []
  {
  }

  lemma {:induction false} LinesConcat(before: Text, tail: Text)
    requires Rest(before) == []
    ensures Lines(before + tail) == Lines(before) + Lines(tail) && Rest(before + tail) == Rest(tail)
  {
    if tail == [] {
      assert before + tail == before;
    } else {
      var init, c := tail[..|tail| - 1], tail[|tail| - 1];
      assert tail == init + [c];
      LinesConcat(before, init);
      LastByte(before + init, c);
      Regroup(before, init, [c]);
    }
  }

  lemma {:induction false} NoReturnInLines(s: Text)
    requires CR !in s
    ensures CR !in Rest(s) && forall line | line in Lines(s) :: CR !in line
  {
    if s != [] {
      var init := s[..|s| - 1];
      assert forall c | c in init :: c in s;
      assert s[|s| - 1] in s;
      NoReturnInLines(init);
    }
  }

  lemma NoReturnAtEnd(line: Text)
    requires CR !in line
    ensures TrimRight(line, CR) == line
  {
    assert line != [] ==> line[|line| - 1] in line;
  }

  lemma NothingTrimmed(lines: seq<Text>)
    requires forall line | line in lines :: CR !in line
    ensures Trimmed(lines) == lines
  {
    TrimmedAt(lines);
    forall i | 0 <= i < |lines| ensures Trimmed(lines)[i] == lines[i] {
      assert lines[i] in lines;
      NoReturnAtEnd(lines[i]);
    }
  }

  /** Without carriage returns, what is shown is the end of the output itself: its last maxLines lines and what
      follows them, without newlines at the end, and of that the last n bytes. */
  lemma EndIsShown(maxLines: nat, n: nat, before: Text, tail: Text)
    requires CR !in before && CR !in tail && (before != [] ==> before[|before| - 1] == LF)
    requires if before == [] then Newlines(tail) <= maxLines else Newlines(tail) == maxLines
    ensures LastOutput(before + tail, maxLines, n) == Last(n, TrimRight(tail, LF))
    ensures Plain(before + tail, n)
  {
    var all := before + tail;
    assert forall c | c in all :: c in before || c in tail;
    NoReturnInLines(all);
    NothingTrimmed(Lines(all));
    assert Plain(all, n) by {
      forall line | line in Lines(all) ensures PlainLine(n, line) {
        if line != [] { assert line[|line| - 1] in line; }
      }
    }
    LinesConcat(before, tail);
    NewlinesAreLines(tail);
    LastOfBoth(maxLines, Lines(before), Lines(tail));
    TailJoined(tail);
  }

  lemma LastOfBoth(k: nat, a: seq<Text>, b: seq<Text>)
    requires if a == [] then |b| <= k else |b| == k
    ensures LastLines(k, a + b) == b
  {
  }

  lemma TailJoined(tail: Text)
    ensures TrimRight(Join(WithRest(Lines(tail), Rest(tail))), LF) == TrimRight(tail, LF)
  {
    LinesJoined(tail);
    var joined := Join(WithRest(Lines(tail), Rest(tail)));
    if Rest(tail) == [] && tail != [] {
      assert tail[..|tail| - 1] == joined;
    }
  }
}
