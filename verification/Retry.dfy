/** The bounded search for a volume's directory, whose attempts all write into
    one buffer. */
module Retry {

  datatype Result<+T> = Ok(value: T) | Err

  // ---- white space --------------------------------------------------------------

  /** unicode.IsSpace. */
  predicate IsSpace(c: char) {
    || '\t' <= c <= '\r' || c == ' ' || c == '\U{85}' || c == '\U{A0}' || c == '\U{1680}'
    || '\U{2000}' <= c <= '\U{200A}' || c == '\U{2028}' || c == '\U{2029}' || c == '\U{202F}'
    || c == '\U{205F}' || c == '\U{3000}'
  }

  predicate Blank(s: string) {
    forall i :: 0 <= i < |s| ==> IsSpace(s[i])
  }

  function TrimLeft(s: string): string {
    if s != "" && IsSpace(s[0]) then TrimLeft(s[1..]) else s
  }

  function TrimRight(s: string): string {
    if s != "" && IsSpace(s[|s| - 1]) then TrimRight(s[..|s| - 1]) else s
  }

  /** strings.TrimSpace. */
  function Trim(s: string): string {
    TrimRight(TrimLeft(s))
  }

  /** The white space below 256, written out; blanks inside the other planes follow
      the Unicode property. */
  lemma SpaceCharacters(c: char)
    requires c < '\U{100}'
    ensures IsSpace(c) <==> c in {'\t', '\n', '\U{0B}', '\U{0C}', '\r', ' ', '\U{85}', '\U{A0}'}
  {
  }

  lemma {:induction false} TrimLeftOfBlankPrefix(a: string, b: string)
    requires Blank(a)
    ensures TrimLeft(a + b) == TrimLeft(b)
  {
    if a == "" {
      assert a + b == b;
    } else {
      assert (a + b)[1..] == a[1..] + b;
      TrimLeftOfBlankPrefix(a[1..], b);
    }
  }

  /** Blank output in front of a text does not show in the trimmed text. */
  lemma TrimOfBlankPrefix(a: string, b: string)
    requires Blank(a)
    ensures Trim(a + b) == Trim(b)
  {
    TrimLeftOfBlankPrefix(a, b);
  }

  lemma {:induction false} TrimLeftKeepsInk(s: string)
    ensures !Blank(s) ==> TrimLeft(s) != "" && !IsSpace(TrimLeft(s)[0])
    ensures Blank(s) ==> TrimLeft(s) == ""
  {
    if s != "" && IsSpace(s[0]) {
      assert Blank(s) <==> Blank(s[1..]) by {
        if Blank(s[1..]) {
          assert forall i :: 0 < i < |s| ==> s[i] == s[1..][i - 1];
        }
      }
      TrimLeftKeepsInk(s[1..]);
    }
  }

  lemma {:induction false} TrimRightKeepsInk(s: string)
    requires s != "" && !IsSpace(s[0])
    ensures TrimRight(s) != ""
  {
    if IsSpace(s[|s| - 1]) {
      TrimRightKeepsInk(s[..|s| - 1]);
    }
  }

  lemma TrimIsEmptyOnBlankOnly(s: string)
    ensures Trim(s) == "" <==> Blank(s)
  {
    TrimLeftKeepsInk(s);
    if !Blank(s) {
      TrimRightKeepsInk(TrimLeft(s));
    }
  }

  /** What trimming means: it cuts off a blank start and a blank end and leaves no
      white space at either edge. */
  lemma TrimMeans(s: string) returns (a: string, b: string)
    ensures s == a + Trim(s) + b && Blank(a) && Blank(b)
    ensures var t := Trim(s); t != "" ==> !IsSpace(t[0]) && !IsSpace(t[|t| - 1])
  {
    TrimLeftKeepsInk(s);
    a := TrimLeftCuts(s);
    b := TrimRightCuts(TrimLeft(s));
    assert Trim(s) != "" ==> TrimLeft(s)[0] == Trim(s)[0];
  }

  lemma {:induction false} TrimLeftCuts(s: string) returns (a: string)
    ensures s == a + TrimLeft(s) && Blank(a)
  {
    a := "";
    if s != "" && IsSpace(s[0]) {
      a := TrimLeftCuts(s[1..]);
      a := [s[0]] + a;
    }
  }

  lemma {:induction false} TrimRightCuts(s: string) returns (b: string)
    ensures s == TrimRight(s) + b && Blank(b)
    ensures var t := TrimRight(s); t != "" ==> !IsSpace(t[|t| - 1])
  {
    b := "";
    if s != "" && IsSpace(s[|s| - 1]) {
      var n := |s| - 1;
      b := TrimRightCuts(s[..n]);
      b := b + [s[n]];
    }
  }

  // ---- the search --------------------------------------------------------------------

  const ATTEMPTS := 12

  /** The first attempt from i on that prints anything decides, on its own; an
      attempt that fails before that is the result. */
  function FirstOutput(output: nat -> Result<string>, i: nat): Result<string>
    decreases ATTEMPTS + 1 - i
  {
    if i > ATTEMPTS then Ok("")
    else if output(i).Err? then Err
    else if Blank(output(i).value) then FirstOutput(output, i + 1)
    else Ok(Trim(output(i).value))
  }

  predicate Silent(output: nat -> Result<string>, i: nat) {
    output(i).Ok? && Blank(output(i).value)
  }

  /** The attempt that decides is the first that is not silent; if all twelve are
      silent nothing was found. */
  lemma {:induction false} FirstOutputDecides(output: nat -> Result<string>, start: nat, i: nat)
    requires 1 <= start <= i <= ATTEMPTS + 1
    requires forall j :: start <= j < i ==> Silent(output, j)
    requires i <= ATTEMPTS ==> !Silent(output, i)
    ensures FirstOutput(output, start) ==
            if i > ATTEMPTS then Ok("") else if output(i).Err? then Err else Ok(Trim(output(i).value))
    decreases i - start
  {
    if start < i {
      assert Silent(output, start);
      FirstOutputDecides(output, start + 1, i);
    }
  }

  /** Attempt n of twelve is the first to print anything, and trimmed it is dir. */
  ghost predicate FirstSaid(output: nat -> Result<string>, n: nat, dir: string) {
    && 1 <= n <= 12
    && (forall i :: 1 <= i < n ==> output(i).Ok? && Blank(output(i).value))
    && output(n).Ok? && !Blank(output(n).value) && dir == Trim(output(n).value)
  }

  /** A directory is found exactly if some attempt is the first to print, and it is
      empty exactly if twelve attempts print nothing. */
  lemma FoundIsFirstSaid(output: nat -> Result<string>, dir: string)
    ensures dir != "" ==> (FirstOutput(output, 1) == Ok(dir) <==> exists n: nat :: FirstSaid(output, n, dir))
    ensures FirstOutput(output, 1) == Ok("") <==> forall i :: 1 <= i <= 12 ==> output(i).Ok? && Blank(output(i).value)
  {
    var i := FirstLoud(output, 1);
    FirstOutputDecides(output, 1, i);
    if i <= 12 && output(i).Ok? {
      TrimIsEmptyOnBlankOnly(output(i).value);
      assert FirstSaid(output, i, Trim(output(i).value));
    }
    assert forall n: nat :: FirstSaid(output, n, dir) ==> n == i;
  }

  lemma {:induction false} FirstLoud(output: nat -> Result<string>, start: nat) returns (i: nat)
    requires 1 <= start <= ATTEMPTS + 1
    ensures start <= i <= ATTEMPTS + 1 && (forall j :: start <= j < i ==> output(j).Ok? && Blank(output(j).value))
    ensures i <= ATTEMPTS ==> !Silent(output, i)
    decreases ATTEMPTS + 1 - start
  {
    i := start;
    if i <= ATTEMPTS && Silent(output, i) {
      i := FirstLoud(output, start + 1);
    }
  }

  /** The loop as written: every attempt appends to the same buffer, and the
      whole buffer is trimmed, yet the result is that of one attempt alone. */
  method FindDirectory(output: nat -> Result<string>) returns (r: Result<string>)
    ensures r == FirstOutput(output, 1)
  {
    var buffer := "";
    var i := 1;
    while i <= ATTEMPTS
      invariant 1 <= i <= ATTEMPTS + 1
      invariant Blank(buffer)
      invariant FirstOutput(output, 1) == FirstOutput(output, i)
    {
      if output(i).Err? { return Err; }
      TrimOfBlankPrefix(buffer, output(i).value);
      TrimIsEmptyOnBlankOnly(buffer + output(i).value);
      TrimIsEmptyOnBlankOnly(output(i).value);
      buffer := buffer + output(i).value;
      if |Trim(buffer)| != 0 { break; }
      i := i + 1;
    }
    TrimIsEmptyOnBlankOnly(buffer);
    return Ok(Trim(buffer));
  }
}
