/** The string steps of `getInitials`: `split(' ')`, `charAt(0)` of each
    piece, `join('')`, `toUpperCase()` (ASCII letters only) and
    `slice(0, 2)`. */
module Initials {

  /** `s.split(sep)`: every occurrence of `sep` ends a piece, so the result is
      never empty and `"".split(sep) == [""]`. */
  function Split(s: string, sep: char): (pieces: seq<string>)
    ensures |pieces| >= 1
    ensures forall i, j :: 0 <= i < |pieces| && 0 <= j < |pieces[i]| ==> pieces[i][j] != sep
  {
    if s == [] then [[]]
    else if s[0] == sep then [[]] + Split(s[1..], sep)
    else
      var rest := Split(s[1..], sep);
      [[s[0]] + rest[0]] + rest[1..]
  }

  /** `pieces.join(sep)`. */
  function Join(pieces: seq<string>, sep: char): string
    requires |pieces| >= 1
    decreases |pieces|
  {
    if |pieces| == 1 then pieces[0] else pieces[0] + [sep] + Join(pieces[1..], sep)
  }

  /** Splitting and re-joining with the same separator gives back the input. */
  lemma {:induction false} JoinSplit(s: string, sep: char)
    ensures Join(Split(s, sep), sep) == s
  {
    if s != [] {
      JoinSplit(s[1..], sep);
      var rest := Split(s[1..], sep);
      if s[0] == sep {
        assert Split(s, sep)[1..] == rest;
      } else {
        var p := Split(s, sep);
        assert p[1..] == rest[1..];
        if |rest| > 1 {
          assert Join(rest, sep) == rest[0] + [sep] + Join(rest[1..], sep);
        }
      }
    }
  }

  /** `word.charAt(0)`: the first character, or "" for an empty word. */
  function CharAt0(w: string): (c: string)
    ensures |c| <= 1
    ensures |c| == 1 <==> w != []
    ensures w != [] ==> c[0] == w[0]
  {
    if w == [] then [] else [w[0]]
  }

  /** `.map(word => word.charAt(0)).join('')`. */
  function FirstChars(words: seq<string>): (r: string)
    ensures |r| <= |words|
    ensures (forall i :: 0 <= i < |words| ==> words[i] != []) ==> |r| == |words|
  {
    if words == [] then []
    else
      assert forall i :: 1 <= i < |words| ==> words[1..][i - 1] == words[i];
      CharAt0(words[0]) + FirstChars(words[1..])
  }

  function UpperChar(c: char): (u: char)
    ensures 'a' <= c <= 'z' ==> 'A' <= u <= 'Z' && u as int == c as int - 32
    ensures !('a' <= c <= 'z') ==> u == c
  {
    if 'a' <= c <= 'z' then (c as int - 32) as char else c
  }

  /** `toUpperCase()` restricted to ASCII: length and non-letters preserved. */
  function Upper(s: string): (u: string)
    ensures |u| == |s|
    ensures forall i :: 0 <= i < |s| ==> u[i] == UpperChar(s[i])
  {
    if s == [] then [] else [UpperChar(s[0])] + Upper(s[1..])
  }

  /** `slice(0, 2)`. */
  function Take2(s: string): (t: string)
    ensures |t| == if |s| < 2 then |s| else 2
    ensures t == s[..|t|]
  {
    if |s| <= 2 then s else s[..2]
  }

  /** The initials pipeline shared by the profile page and the header. */
  function GetInitials(name: string): (r: string)
    ensures |r| <= 2
  {
    Take2(Upper(FirstChars(Split(name, ' '))))
  }

  /** Reference definition: the characters that start a word, i.e. that are
      not a space and follow a space or the start of the string. */
  function WordStarts(s: string, afterSpace: bool): string
  {
    if s == [] then []
    else (if s[0] != ' ' && afterSpace then [s[0]] else []) + WordStarts(s[1..], s[0] == ' ')
  }

  lemma {:induction false} FirstCharsAreWordStarts(s: string)
    ensures FirstChars(Split(s, ' ')) == WordStarts(s, true)
    ensures FirstChars(Split(s, ' ')[1..]) == WordStarts(s, false)
  {
    if s != [] {
      FirstCharsAreWordStarts(s[1..]);
      var rest := Split(s[1..], ' ');
      var p := Split(s, ' ');
      if s[0] == ' ' {
        assert p[1..] == rest;
        assert FirstChars(p) == CharAt0(p[0]) + FirstChars(p[1..]);
      } else {
        assert p[1..] == rest[1..];
        assert FirstChars(p) == CharAt0(p[0]) + FirstChars(p[1..]);
        assert FirstChars(rest) == CharAt0(rest[0]) + FirstChars(rest[1..]);
      }
    }
  }

  /** `getInitials` is the first two word-starting characters, uppercased:
      empty pieces from leading or repeated spaces contribute nothing. */
  lemma InitialsAreWordStarts(name: string)
    ensures GetInitials(name) == Take2(Upper(WordStarts(name, true)))
  {
    FirstCharsAreWordStarts(name);
  }

  /** Leading spaces do not change the initials, and a blank name has none. */
  lemma InitialsIgnoreLeadingSpace(name: string)
    ensures GetInitials([' '] + name) == GetInitials(name)
    ensures GetInitials("") == ""
    ensures GetInitials(" ") == ""
  {
    var spaced := [' '] + name;
    InitialsAreWordStarts(spaced);
    InitialsAreWordStarts(name);
    assert spaced[1..] == name;
    assert WordStarts(spaced, true) == WordStarts(name, true);
    BlankHasNoInitials();
  }

  lemma BlankHasNoInitials()
    ensures GetInitials("") == ""
    ensures GetInitials(" ") == ""
  {
    InitialsAreWordStarts(" ");
    assert WordStarts(" ", true) == [];
  }

  /** Two one-letter words give two initials, as "a b" shows "AB". */
  lemma TwoWordInitials(x: char, y: char)
    requires x != ' ' && y != ' '
    ensures GetInitials([x, ' ', y]) == [UpperChar(x), UpperChar(y)]
  {
    InitialsAreWordStarts([x, ' ', y]);
    assert WordStarts([y], true) == [y];
    assert WordStarts([' ', y], false) == [y];
    assert WordStarts([x, ' ', y], true) == [x, y];
  }

  /** A third word is cut off by `slice(0, 2)`: "a b c" shows "AB". */
  lemma ThirdWordDropped(x: char, y: char, z: char)
    requires x != ' ' && y != ' ' && z != ' '
    ensures GetInitials([x, ' ', y, ' ', z]) == [UpperChar(x), UpperChar(y)]
  {
    InitialsAreWordStarts([x, ' ', y, ' ', z]);
    assert WordStarts([z], true) == [z];
    assert WordStarts([' ', z], false) == [z];
    assert WordStarts([y, ' ', z], true) == [y, z];
    assert WordStarts([' ', y, ' ', z], false) == [y, z];
    assert WordStarts([x, ' ', y, ' ', z], true) == [x, y, z];
  }
}
