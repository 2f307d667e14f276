/** The avatar initials on the members page: the first letter of each space-separated
    word of a name, upper-cased, at most two of them. */
module Member {

  /** `s.split(" ")`: the pieces between single spaces, empty pieces included; the
      empty name is one empty piece. */
  function Split(s: string): (ws: seq<string>)
    ensures |ws| >= 1
    ensures forall k :: 0 <= k < |ws| ==> NoSpace(ws[k])
  {
    if s == [] then [[]]
    else
      var ws := Split(s[..|s| - 1]);
      var c := s[|s| - 1];
      if c == ' ' then ws + [[]] else GrowLast(ws, [c])
  }

  /** The pieces with `w` appended to the last one. */
  function GrowLast(ws: seq<string>, w: string): (vs: seq<string>)
    requires |ws| >= 1
    ensures |vs| == |ws|
  {
    ws[..|ws| - 1] + [ws[|ws| - 1] + w]
  }

  predicate NoSpace(w: string)
  {
    forall i :: 0 <= i < |w| ==> w[i] != ' '
  }

  /** The pieces joined by single spaces. */
  function Join(ws: seq<string>): string
    requires |ws| >= 1
  {
    if |ws| == 1 then ws[0] else Join(ws[..|ws| - 1]) + " " + ws[|ws| - 1]
  }

  /** Splitting loses nothing: joining the pieces again gives the name back. */
  lemma {:induction false} JoinSplit(s: string)
    ensures Join(Split(s)) == s
    decreases |s|
  {
    if s != [] {
      var init := s[..|s| - 1];
      var c := s[|s| - 1];
      var ws := Split(init);
      JoinSplit(init);
      assert s == init + [c];
      if c == ' ' {
        assert (ws + [[]])[..|ws|] == ws;
      } else {
        JoinExtendLast(ws, [c]);
      }
    }
  }

  /** Extending the last piece extends the joined text. */
  lemma JoinExtendLast(ws: seq<string>, w: string)
    requires |ws| >= 1
    ensures Join(GrowLast(ws, w)) == Join(ws) + w
  {
    var init := ws[..|ws| - 1];
    var last := ws[|ws| - 1];
    var vs := GrowLast(ws, w);
    assert vs == init + [last + w];
    if |ws| > 1 {
      assert vs[..|vs| - 1] == init && vs[|vs| - 1] == last + w;
      assert Join(init) + " " + (last + w) == (Join(init) + " " + last) + w;
    }
  }

  /** Appending space-free text to a name grows its last piece. */
  lemma {:induction false} SplitExtend(s: string, w: string)
    requires NoSpace(w)
    ensures Split(s + w) == GrowLast(Split(s), w)
    decreases |w|
  {
    if w == [] {
      assert s + w == s;
      GrowLastByNothing(Split(s));
    } else {
      var init := w[..|w| - 1];
      var c := w[|w| - 1];
      assert init + [c] == w;
      NoSpacePrefix(w);
      SplitExtend(s, init);
      SplitExtendStep(s, init, c);
    }
  }

  /** The step of the induction: one more letter, other than a space, at the end. */
  lemma SplitExtendStep(s: string, init: string, c: char)
    requires c != ' ' && Split(s + init) == GrowLast(Split(s), init)
    ensures Split(s + (init + [c])) == GrowLast(Split(s), init + [c])
  {
    assert s + (init + [c]) == (s + init) + [c];
    SplitLetter(s + init, c);
    GrowLastTwice(Split(s), init, c);
  }

  lemma GrowLastByNothing(ws: seq<string>)
    requires |ws| >= 1
    ensures GrowLast(ws, []) == ws
  {
    assert ws[|ws| - 1] + [] == ws[|ws| - 1];
  }

  /** Growing the last piece by `init` and then by `c` is growing it by `init + [c]`. */
  lemma GrowLastTwice(ws: seq<string>, init: string, c: char)
    requires |ws| >= 1
    ensures GrowLast(GrowLast(ws, init), [c]) == GrowLast(ws, init + [c])
  {
    assert (ws[|ws| - 1] + init) + [c] == ws[|ws| - 1] + (init + [c]);
  }

  lemma NoSpacePrefix(w: string)
    requires w != [] && NoSpace(w)
    ensures NoSpace(w[..|w| - 1]) && w[|w| - 1] != ' '
  {
    var init := w[..|w| - 1];
    forall k | 0 <= k < |init| ensures init[k] != ' ' {
      assert init[k] == w[k];
    }
  }

  /** A letter other than a space grows the last piece. */
  lemma SplitLetter(t: string, c: char)
    requires c != ' '
    ensures Split(t + [c]) == GrowLast(Split(t), [c])
  {
    assert (t + [c])[..|t|] == t;
  }

  /** `n[0]` of each piece, joined: an empty piece gives `undefined`, which joins as nothing. */
  function FirstChars(ws: seq<string>): (r: string)
    ensures |r| <= |ws|
  {
    if ws == [] then []
    else FirstChars(ws[..|ws| - 1]) + (if ws[|ws| - 1] == [] then [] else [ws[|ws| - 1][0]])
  }

  /** Upper-casing a character; letters outside a-z are left as they are. */
  function UpperChar(c: char): char
  {
    if 'a' <= c <= 'z' then (c as int - 'a' as int + 'A' as int) as char else c
  }

  function Upper(s: string): (r: string)
    ensures |r| == |s|
    ensures forall k :: 0 <= k < |s| ==> r[k] == UpperChar(s[k])
  {
    if s == [] then [] else Upper(s[..|s| - 1]) + [UpperChar(s[|s| - 1])]
  }

  /** `getInitials`. */
  function GetInitials(name: string): (r: string)
    ensures |r| <= 2
    ensures |r| == if |FirstChars(Split(name))| < 2 then |FirstChars(Split(name))| else 2
    ensures forall k :: 0 <= k < |r| ==> r[k] == UpperChar(FirstChars(Split(name))[k])
  {
    var firsts := FirstChars(Split(name));
    var u := Upper(firsts);
    u[..if |u| < 2 then |u| else 2]
  }

  /** Empty pieces (from leading, trailing or repeated spaces) contribute nothing. */
  lemma EmptyPieceAddsNothing(ws: seq<string>)
    ensures FirstChars(ws + [[]]) == FirstChars(ws)
  {
    assert (ws + [[]])[..|ws|] == ws;
  }

  /** A name without spaces is a single piece. */
  lemma OneWordSplit(w: string)
    requires NoSpace(w)
    ensures Split(w) == [w]
  {
    var e: string := [];
    SplitExtend(e, w);
    assert e + w == w;
    assert Split(e) == [e];
    assert [e][..0] + [e + w] == [w];
  }

  /** A one-word name gives exactly its first letter. */
  lemma SingleWord(w: string)
    requires w != [] && NoSpace(w)
    ensures GetInitials(w) == [UpperChar(w[0])]
  {
    OneWordSplit(w);
    assert FirstChars([w]) == [w[0]] by {
      assert [w][..0] == [];
    }
  }

  /** A two-word name gives the first letter of each word, in order. */
  lemma TwoWords(a: string, b: string)
    requires a != [] && NoSpace(a) && b != [] && NoSpace(b)
    ensures GetInitials(a + " " + b) == [UpperChar(a[0]), UpperChar(b[0])]
  {
    OneWordSplit(a);
    var s := a + " ";
    assert s[..|s| - 1] == a && s[|s| - 1] == ' ';
    assert Split(s) == [a, []];
    SplitExtend(s, b);
    var e: string := [];
    assert e + b == b;
    assert [a, e][..1] + [e + b] == [a, b];
    assert Split(a + " " + b) == [a, b];
    var ws := [a, b];
    assert ws[..1] == [a];
    assert [a][..0] == [];
    assert FirstChars(ws) == [a[0], b[0]];
  }
}
