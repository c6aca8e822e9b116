/**
  The tokenizer of the driver loop in `main`: the input buffer is cut at every
  `;`, line feed and carriage return, the way repeated `strtok` calls cut it.
  Runs of delimiters yield no empty tokens and tokens come out in input order.
*/
module Tokenizer {

  /** The delimiter set handed to `strtok`. */
  predicate IsDelimiter(c: char) {
    c == ';' || c == '\n' || c == '\r'
  }

  /** A token: a non-empty text without delimiters. */
  predicate IsWord(w: string) {
    w != [] && forall i :: 0 <= i < |w| ==> !IsDelimiter(w[i])
  }

  /** The C string held in a buffer: everything before its first NUL. */
  function CStr(buf: string): (s: string)
    ensures s <= buf
    ensures '\0' !in s
    ensures |s| < |buf| ==> buf[|s|] == '\0'
  {
    if buf == [] || buf[0] == '\0' then [] else [buf[0]] + CStr(buf[1..])
  }

  /** A NUL written after a text ends the C string there. */
  lemma {:induction false} CStrAtNul(w: string, rest: string)
    requires '\0' !in w
    ensures CStr(w + ['\0'] + rest) == w
  {
    if w != [] {
      assert (w + ['\0'] + rest)[1..] == w[1..] + ['\0'] + rest;
      CStrAtNul(w[1..], rest);
    }
  }

  /** A text without NUL is its own C string. */
  lemma {:induction false} CStrNoNul(w: string)
    requires '\0' !in w
    ensures CStr(w) == w
  {
    if w != [] {
      CStrNoNul(w[1..]);
    }
  }

  /** Length of the maximal delimiter-free run at the front of `s`. */
  function RunLength(s: string): (n: nat)
    ensures n <= |s|
    ensures forall i :: 0 <= i < n ==> !IsDelimiter(s[i])
    ensures n < |s| ==> IsDelimiter(s[n])
  {
    if s == [] || IsDelimiter(s[0]) then 0 else 1 + RunLength(s[1..])
  }

  /**
    The tokens `strtok` hands out for the C string `s`, in order. Two tokens are
    always parted by a delimiter, so there are at most half as many tokens as
    characters, rounded up.
  */
  function Tokens(s: string): (r: seq<string>)
    ensures 2 * |r| <= |s| + 1
    decreases |s|
  {
    if s == [] then []
    else if IsDelimiter(s[0]) then Tokens(s[1..])
    else
      var n := RunLength(s);
      var rest := s[n..];
      assert rest != [] ==> IsDelimiter(rest[0]) && Tokens(rest) == Tokens(rest[1..]);
      [s[..n]] + Tokens(rest)
  }

  /** Every token is non-empty and free of delimiters. */
  lemma {:induction false} TokensAreWords(s: string)
    ensures forall i :: 0 <= i < |Tokens(s)| ==> IsWord(Tokens(s)[i])
    decreases |s|
  {
    if s == [] {
    } else if IsDelimiter(s[0]) {
      TokensAreWords(s[1..]);
    } else {
      TokensAreWords(s[RunLength(s)..]);
    }
  }

  /** A character absent from the input is absent from every token. */
  lemma {:induction false} TokensAvoid(s: string, c: char)
    requires c !in s
    ensures forall i :: 0 <= i < |Tokens(s)| ==> c !in Tokens(s)[i]
    decreases |s|
  {
    if s == [] {
    } else if IsDelimiter(s[0]) {
      TokensAvoid(s[1..], c);
    } else {
      var n := RunLength(s);
      assert c !in s[n..];
      TokensAvoid(s[n..], c);
    }
  }

  /** The run length is the only length that ends at a delimiter or at the end. */
  lemma {:induction false} RunLengthIs(s: string, n: nat)
    requires n <= |s|
    requires forall i :: 0 <= i < n ==> !IsDelimiter(s[i])
    requires n < |s| ==> IsDelimiter(s[n])
    ensures RunLength(s) == n
  {
    if n > 0 {
      RunLengthIs(s[1..], n - 1);
    }
  }

  /** A single delimiter-free word is exactly one token. */
  lemma TokensOfWord(w: string)
    requires IsWord(w)
    ensures Tokens(w) == [w]
  {
    RunLengthIs(w, |w|);
    assert w[..|w|] == w;
    assert w[|w|..] == [];
    assert Tokens(w) == [w] + Tokens([]);
  }

  /** Words each followed by a `;`, the usual layout of a plotter file. */
  function Terminated(words: seq<string>): string {
    if words == [] then [] else words[0] + [';'] + Terminated(words[1..])
  }

  /** Tokenizing words laid out with terminating `;` gives the words back. */
  lemma {:induction false} TokensOfTerminated(words: seq<string>)
    requires forall i :: 0 <= i < |words| ==> IsWord(words[i])
    ensures Tokens(Terminated(words)) == words
    decreases |words|
  {
    if words != [] {
      TokensSplit(words[0], ';', Terminated(words[1..]));
      TokensOfWord(words[0]);
      TokensOfTerminated(words[1..]);
    }
  }

  /** Every delimiter splits the input: the tokens on either side are independent. */
  lemma {:induction false} TokensSplit(a: string, d: char, b: string)
    requires IsDelimiter(d)
    ensures Tokens(a + [d] + b) == Tokens(a) + Tokens(b)
    decreases |a|
  {
    var s := a + [d] + b;
    if a == [] {
      assert s[1..] == b;
    } else if IsDelimiter(a[0]) {
      assert s[1..] == a[1..] + [d] + b;
      TokensSplit(a[1..], d, b);
    } else {
      var n := RunLength(s);
      assert s[|a|] == d;
      assert n <= |a|;
      assert forall i :: 0 <= i < n ==> s[i] == a[i];
      RunLengthIs(a, n);
      assert s[..n] == a[..n];
      assert s[n..] == a[n..] + [d] + b;
      TokensSplit(a[n..], d, b);
    }
  }

  /**
    The `strtok` loop of `main`: skip delimiters, cut the next run, stop at
    the buffer's NUL terminator.
  */
  method Tokenize(data: string) returns (tokens: seq<string>)
    ensures tokens == Tokens(CStr(data))
  {
    ghost var s := CStr(data);
    tokens := [];
    var i := 0;
    while i < |data| && data[i] != '\0'
      invariant i <= |s|
      invariant tokens + Tokens(s[i..]) == Tokens(s)
      decreases |data| - i
    {
      assert i < |s| && s[i] == data[i];
      if IsDelimiter(data[i]) {
        TokensSkip(s, i);
        i := i + 1;
      } else {
        var j := ScanRun(data, i);
        assert j <= |s| by {
          assert forall k :: i <= k < j ==> data[k] != '\0';
        }
        assert forall k :: i <= k < j ==> !IsDelimiter(s[k]);
        assert j < |s| ==> s[j] == data[j];
        var token := data[i..j];
        CStrSlice(data, i, j);
        TokensCut(s, i, j);
        Regroup(tokens, token, Tokens(s[j..]));
        tokens := tokens + [token];
        i := j;
      }
    }
    assert s[i..] == [];
  }

  /** The inner scan of `strtok`: from `i`, advance over characters that are neither a delimiter nor NUL. */
  method ScanRun(data: string, i: nat) returns (j: nat)
    requires i <= |data|
    ensures i <= j <= |data|
    ensures forall k :: i <= k < j ==> data[k] != '\0' && !IsDelimiter(data[k])
    ensures j == |data| || data[j] == '\0' || IsDelimiter(data[j])
  {
    j := i;
    while j < |data| && data[j] != '\0' && !IsDelimiter(data[j])
      invariant i <= j <= |data|
      invariant forall k :: i <= k < j ==> data[k] != '\0' && !IsDelimiter(data[k])
    {
      j := j + 1;
    }
  }

  /** Inside the C string, a slice of the buffer is the same slice of the string. */
  lemma CStrSlice(data: string, i: nat, j: nat)
    requires i <= j <= |CStr(data)|
    ensures data[i..j] == CStr(data)[i..j]
  {
  }

  /** Appending a token to those already cut, in front of the ones still to come. */
  lemma Regroup(done: seq<string>, token: string, rest: seq<string>)
    ensures (done + [token]) + rest == done + ([token] + rest)
  {
  }

  /** A delimiter at the front is skipped. */
  lemma TokensSkip(s: string, i: nat)
    requires i < |s| && IsDelimiter(s[i])
    ensures Tokens(s[i..]) == Tokens(s[i + 1..])
  {
    assert s[i..][1..] == s[i + 1..];
  }

  /** One step of the tokenizer loop: the run `s[i..j]` is the next token. */
  lemma TokensCut(s: string, i: nat, j: nat)
    requires i < j <= |s|
    requires forall k :: i <= k < j ==> !IsDelimiter(s[k])
    requires j < |s| ==> IsDelimiter(s[j])
    ensures Tokens(s[i..]) == [s[i..j]] + Tokens(s[j..])
  {
    var t := s[i..];
    RunLengthIs(t, j - i);
    assert t[..j - i] == s[i..j];
    assert t[j - i..] == s[j..];
  }
}
