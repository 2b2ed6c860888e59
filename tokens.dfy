/**
 * Text handling done by `addTagEvent` before any tag is added: the
 * emptiness test on the trimmed raw input, the normalisation of the three
 * alternative delimiters to `,`, and the split on `,`.
 */
module Tokens {

  /** The characters trimmed from both ends of the raw input: the white space
      and line terminators of ECMAScript (the set `String.prototype.trim`
      removes). */
  predicate IsWhitespace(c: char) {
    c == ' ' || c == '\t' || c == '\n' || c == '\r' || c == '\U{000B}' || c == '\U{000C}'
    || c == '\U{00A0}' || c == '\U{1680}' || ('\U{2000}' <= c <= '\U{200A}')
    || c == '\U{2028}' || c == '\U{2029}' || c == '\U{202F}' || c == '\U{205F}'
    || c == '\U{3000}' || c == '\U{FEFF}'
  }

  predicate IsBlank(s: string) {
    forall i :: 0 <= i < |s| ==> IsWhitespace(s[i])
  }

  /** Drops leading white space: the result is the suffix of `s` left after a
      blank prefix, and it does not start with white space. */
  function TrimStart(s: string): (r: string)
    ensures |r| <= |s| && r == s[|s| - |r|..]
    ensures IsBlank(s[..|s| - |r|])
    ensures r == [] || !IsWhitespace(r[0])
  {
    if s != [] && IsWhitespace(s[0]) then TrimStart(s[1..]) else s
  }

  /** Drops trailing white space: the result is the prefix of `s` left before a
      blank suffix, and it does not end with white space. */
  function TrimEnd(s: string): (r: string)
    ensures |r| <= |s| && r == s[..|r|]
    ensures IsBlank(s[|r|..])
    ensures r == [] || !IsWhitespace(r[|r| - 1])
  {
    if s != [] && IsWhitespace(s[|s| - 1]) then TrimEnd(s[..|s| - 1]) else s
  }

  /** `$.trim`: neither end of the result is white space, and the result is
      empty exactly when every character of `s` is white space. */
  function Trim(s: string): (r: string)
    ensures |r| <= |s|
    ensures r == [] || (!IsWhitespace(r[0]) && !IsWhitespace(r[|r| - 1]))
    ensures r == "" <==> IsBlank(s)
  {
    TrimEnd(TrimStart(s))
  }

  /** `；` (U+FF1B), `，` (U+FF0C) and `;`, the delimiters rewritten to `,`. */
  predicate IsDelimiter(c: char) {
    c == '\U{FF1B}' || c == '\U{FF0C}' || c == ';'
  }

  /** `value.replace(/[；，;]/g, ',')`: every delimiter becomes `,` and every
      other character stays where it was. */
  function Normalize(s: string): (r: string)
    ensures |r| == |s|
    ensures forall i :: 0 <= i < |s| ==> r[i] == (if IsDelimiter(s[i]) then ',' else s[i])
    ensures forall i :: 0 <= i < |r| ==> !IsDelimiter(r[i])
  {
    if s == [] then [] else [if IsDelimiter(s[0]) then ',' else s[0]] + Normalize(s[1..])
  }

  /** `s.split(',')`: the maximal comma-free runs of `s`, in order; an empty
      string and adjacent, leading or trailing commas give empty pieces. */
  function Split(s: string): (r: seq<string>)
    ensures |r| >= 1
    ensures forall i :: 0 <= i < |r| ==> ',' !in r[i]
  {
    if s == [] then [""]
    else if s[0] == ',' then [""] + Split(s[1..])
    else
      var rest := Split(s[1..]);
      [[s[0]] + rest[0]] + rest[1..]
  }

  /** `ps.join(',')`: it starts with the first piece, followed by a comma
      when more pieces come. */
  function Join(ps: seq<string>): (r: string)
    requires |ps| >= 1
    ensures |ps[0]| <= |r| && r[..|ps[0]|] == ps[0]
    ensures |ps| > 1 ==> |ps[0]| < |r| && r[|ps[0]|] == ','
  {
    if |ps| == 1 then ps[0] else ps[0] + "," + Join(ps[1..])
  }

  /** The pieces `addTagEvent` hands to `addTag`, one by one: at least one,
      none holding a comma, and joined with `,` they give back the
      normalised input. */
  function Pieces(raw: string): (r: seq<string>)
    ensures |r| >= 1
    ensures forall i :: 0 <= i < |r| ==> ',' !in r[i]
    ensures Join(r) == Normalize(raw)
  {
    var n := Normalize(raw);
    JoinSplit(n);
    Split(n)
  }

  /** Joining the pieces with `,` gives back the string that was split. */
  lemma {:induction false} JoinSplit(s: string)
    ensures Join(Split(s)) == s
  {
    if s == [] {
    } else if s[0] == ',' {
      JoinSplit(s[1..]);
      assert Split(s)[1..] == Split(s[1..]);
      assert s == [','] + s[1..];
    } else {
      JoinSplit(s[1..]);
      var rest := Split(s[1..]);
      if |rest| == 1 {
        assert s == [s[0]] + s[1..];
      } else {
        assert Split(s)[1..] == rest[1..];
        assert Join(rest) == rest[0] + "," + Join(rest[1..]);
        assert s == [s[0]] + s[1..];
      }
    }
  }

  /** A comma-free string is one piece. */
  lemma {:induction false} SplitCommaFree(a: string)
    requires ',' !in a
    ensures Split(a) == [a]
  {
    if a != [] {
      SplitCommaFree(a[1..]);
      assert a == [a[0]] + a[1..];
    }
  }

  /** A comma-free prefix followed by a comma is the first piece. */
  lemma {:induction false} SplitAtComma(a: string, b: string)
    requires ',' !in a
    ensures Split(a + "," + b) == [a] + Split(b)
  {
    if a == [] {
      assert a + "," + b == [','] + b;
      assert (a + "," + b)[1..] == b;
    } else {
      SplitAtComma(a[1..], b);
      assert (a + "," + b)[1..] == a[1..] + "," + b;
      assert [a[0]] + a[1..] == a;
    }
  }

  /** Splitting comma-free pieces joined with `,` gives back those pieces. */
  lemma {:induction false} SplitJoin(ps: seq<string>)
    requires |ps| >= 1
    requires forall i :: 0 <= i < |ps| ==> ',' !in ps[i]
    ensures Split(Join(ps)) == ps
  {
    if |ps| == 1 {
      SplitCommaFree(ps[0]);
    } else {
      SplitJoin(ps[1..]);
      SplitAtComma(ps[0], Join(ps[1..]));
      assert ps == [ps[0]] + ps[1..];
    }
  }

  /** `"x；y,z"` is split into `"x"`, `"y"` and `"z"`: the full-width
      semicolon and the ASCII comma both separate. */
  lemma PiecesExample()
    ensures Pieces("x\U{FF1B}y,z") == ["x", "y", "z"]
  {
    var n := Normalize("x\U{FF1B}y,z");
    assert n == "x,y,z" by {
      assert |n| == 5 && n[0] == 'x' && n[1] == ',' && n[2] == 'y' && n[3] == ',' && n[4] == 'z';
    }
    SplitJoin(["x", "y", "z"]);
    assert Join(["x", "y", "z"]) == "x,y,z";
  }

  /** `"a; "` is split into `"a"` and `" "`: the pieces are not trimmed. */
  lemma PiecesBlankExample()
    ensures Pieces("a; ") == ["a", " "]
  {
    var n := Normalize("a; ");
    assert n == "a, " by {
      assert |n| == 3 && n[0] == 'a' && n[1] == ',' && n[2] == ' ';
    }
    SplitJoin(["a", " "]);
    assert Join(["a", " "]) == "a, ";
  }
}
