/** Shared vocabulary of the client-side rule layer: optional values, results,
    numeric text fields, whitespace trimming and sums of amounts. */
module Common {

  datatype Option<+T> = None | Some(value: T)

  datatype Result<+T, +E> = Ok(value: T) | Err(error: E)

  /** A text input that holds a whole number of rupiah (or a count).
      `Blank` is the empty string, which JavaScript treats as false;
      any typed number, including "0", is a non-empty string and therefore true. */
  datatype Entry = Blank | Filled(value: int)

  /** `Number(text)`: the empty string converts to 0. */
  function Number(e: Entry): (n: int)
    ensures e.Blank? ==> n == 0
    ensures e.Filled? ==> n == e.value
  {
    match e
    case Blank => 0
    case Filled(v) => v
  }

  /** What one optional line contributes to a running total:
      `if (enabled && amount) total += Number(amount)`. */
  function Contribution(enabled: bool, amount: Entry): (c: int)
    ensures !enabled || amount.Blank? ==> c == 0
    ensures enabled && amount.Filled? ==> c == amount.value
  {
    if enabled && amount.Filled? then amount.value else 0
  }

  /** `text || undefined`: an empty text is left out of a request. */
  function Optional(text: string): (o: Option<string>)
    ensures o == None <==> text == ""
    ensures o.Some? ==> o.value == text
  {
    if text == "" then None else Some(text)
  }

  function Sum(xs: seq<int>): int
  {
    if xs == [] then 0 else Sum(xs[..|xs| - 1]) + xs[|xs| - 1]
  }

  lemma {:induction false} SumAppend(xs: seq<int>, x: int)
    ensures Sum(xs + [x]) == Sum(xs) + x
  {
    assert (xs + [x])[..|xs + [x]| - 1] == xs;
  }

  lemma {:induction false} SumConcat(xs: seq<int>, ys: seq<int>)
    ensures Sum(xs + ys) == Sum(xs) + Sum(ys)
    decreases |ys|
  {
    if ys == [] {
      assert xs + ys == xs;
    } else {
      var init := ys[..|ys| - 1];
      var last := ys[|ys| - 1];
      assert ys == init + [last];
      assert xs + ys == (xs + init) + [last];
      SumAppend(xs + init, last);
      SumConcat(xs, init);
      SumAppend(init, last);
    }
  }

  lemma {:induction false} SumNonNegative(xs: seq<int>)
    requires forall i :: 0 <= i < |xs| ==> xs[i] >= 0
    ensures Sum(xs) >= 0
    decreases |xs|
  {
    if xs != [] {
      SumNonNegative(xs[..|xs| - 1]);
    }
  }

  /** `xs.filter((_, i) => i !== index)`: the element at `index` dropped, the others
      kept in order; an index outside the list drops nothing. */
  function RemoveAt<T>(xs: seq<T>, index: int): (r: seq<T>)
    ensures 0 <= index < |xs| ==> |r| == |xs| - 1
    ensures 0 <= index < |xs| ==> forall j :: 0 <= j < index ==> r[j] == xs[j]
    ensures 0 <= index < |xs| ==> forall j :: index <= j < |r| ==> r[j] == xs[j + 1]
    ensures !(0 <= index < |xs|) ==> r == xs
  {
    if 0 <= index < |xs| then xs[..index] + xs[index + 1..] else xs
  }

  /** The characters that `String.prototype.trim` removes: the white space and line
      terminators of ECMAScript, the space separators of Unicode among them. */
  predicate IsSpace(c: char)
  {
    || c == '\t' || c == '\U{000B}' || c == '\U{000C}' || c == ' ' || c == '\U{00A0}' || c == '\U{FEFF}'
    || c == '\U{1680}' || ('\U{2000}' <= c <= '\U{200A}') || c == '\U{202F}' || c == '\U{205F}' || c == '\U{3000}'
    || c == '\n' || c == '\r' || c == '\U{2028}' || c == '\U{2029}'
  }

  predicate IsBlank(s: string)
  {
    forall i :: 0 <= i < |s| ==> IsSpace(s[i])
  }

  /** The first index at or after `k` that does not hold white space, or `|s|`. */
  function SkipSpaces(s: string, k: nat): (n: nat)
    requires k <= |s|
    ensures k <= n <= |s|
    ensures forall i :: k <= i < n ==> IsSpace(s[i])
    ensures n < |s| ==> !IsSpace(s[n])
    decreases |s| - k
  {
    if k < |s| && IsSpace(s[k]) then SkipSpaces(s, k + 1) else k
  }

  /** The last index at or before `k` after a character that is not white space, or 0. */
  function SkipSpacesBack(s: string, k: nat): (n: nat)
    requires k <= |s|
    ensures n <= k
    ensures forall i :: n <= i < k ==> IsSpace(s[i])
    ensures n > 0 ==> !IsSpace(s[n - 1])
  {
    if k > 0 && IsSpace(s[k - 1]) then SkipSpacesBack(s, k - 1) else k
  }

  function TrimStart(s: string): (r: string)
    ensures |r| <= |s|
    ensures r == s[|s| - |r|..]
    ensures r != [] ==> !IsSpace(r[0])
    ensures IsBlank(s[..|s| - |r|])
  {
    s[SkipSpaces(s, 0)..]
  }

  function TrimEnd(s: string): (r: string)
    ensures |r| <= |s|
    ensures r == s[..|r|]
    ensures r != [] ==> !IsSpace(r[|r| - 1])
    ensures IsBlank(s[|r|..])
  {
    s[..SkipSpacesBack(s, |s|)]
  }

  /** `s.trim()`: leading and trailing white space removed. The result is a stretch
      of the text with only white space before and after it, and it neither begins nor
      ends with white space. */
  function Trim(s: string): (r: string)
    ensures r != [] ==> !IsSpace(r[0]) && !IsSpace(r[|r| - 1])
    ensures exists i :: 0 <= i && i + |r| <= |s| && r == s[i..i + |r|] && IsBlank(s[..i]) && IsBlank(s[i + |r|..])
  {
    var t := TrimStart(s);
    var r := TrimEnd(t);
    var i := |s| - |t|;
    assert r == s[i..i + |r|];
    assert IsBlank(s[..i]);
    assert IsBlank(s[i + |r|..]) by {
      assert s[i + |r|..] == t[|r|..];
    }
    r
  }

  /** A field that is blank after trimming is exactly one made of white space only. */
  lemma TrimEmptyIffBlank(s: string)
    ensures Trim(s) == [] <==> IsBlank(s)
  {
    var t := TrimStart(s);
    if t != [] {
      var r := TrimEnd(t);
      assert !IsSpace(t[0]);
      assert s[|s| - |t|] == t[0];
    } else {
      assert s[..|s|] == s;
    }
  }
}
