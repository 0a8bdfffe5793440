/**
  The string operations of the JavaScript runtime that the portal relies on,
  restricted to ASCII: case mapping, `indexOf`/`includes`, `replace` with a
  string pattern, `replace(/x/g, y)` for a single character, the `\b\w`
  capitalisation, `join`, `String(n)` for naturals and `Number(s)` for
  integer literals.
*/
module JsStrings {
  import opened Wrappers

  // ---------------------------------------------------------------------
  // Character classes and case mapping (ASCII only)
  // ---------------------------------------------------------------------

  predicate IsUpper(c: char) { 'A' <= c <= 'Z' }
  predicate IsLower(c: char) { 'a' <= c <= 'z' }
  predicate IsDigit(c: char) { '0' <= c <= '9' }
  predicate IsAlnum(c: char) { IsUpper(c) || IsLower(c) || IsDigit(c) }

  /** The class `\w` of a JavaScript regular expression without the `u` flag. */
  predicate IsWordChar(c: char) { IsAlnum(c) || c == '_' }

  function LowerChar(c: char): char
  {
    if IsUpper(c) then (c as int + 32) as char else c
  }

  function UpperChar(c: char): char
  {
    if IsLower(c) then (c as int - 32) as char else c
  }

  /** `s.toLowerCase()` */
  function ToLower(s: string): (r: string)
    ensures |r| == |s|
    ensures forall i :: 0 <= i < |s| ==> r[i] == LowerChar(s[i])
  {
    if s == [] then [] else [LowerChar(s[0])] + ToLower(s[1..])
  }

  lemma ToLowerHasNoUpper(s: string)
    ensures forall i :: 0 <= i < |s| ==> !IsUpper(ToLower(s)[i])
  {
  }

  /** Lower-casing twice is lower-casing once. */
  lemma ToLowerIdempotent(s: string)
    ensures ToLower(ToLower(s)) == ToLower(s)
  {
    var once := ToLower(s);
    var twice := ToLower(once);
    assert |twice| == |once|;
    forall i | 0 <= i < |once| ensures twice[i] == once[i] {
      assert !IsUpper(once[i]);
    }
  }

  // ---------------------------------------------------------------------
  // indexOf / includes
  // ---------------------------------------------------------------------

  /** `pat` occurs in `s` starting at index `i`. */
  predicate OccursAt(s: string, pat: string, i: int)
  {
    0 <= i && i + |pat| <= |s| && s[i..i + |pat|] == pat
  }

  /** `s.indexOf(pat)`: the first index at which `pat` occurs, or -1. */
  function IndexOf(s: string, pat: string): (r: int)
    ensures -1 <= r <= |s|
    ensures r >= 0 ==> OccursAt(s, pat, r)
    ensures r >= 0 ==> forall j :: 0 <= j < r ==> !OccursAt(s, pat, j)
    ensures r == -1 <==> forall j :: 0 <= j <= |s| ==> !OccursAt(s, pat, j)
    decreases |s|
  {
    if |pat| > |s| then -1
    else if s[..|pat|] == pat then
      assert s[0..|pat|] == s[..|pat|];
      assert OccursAt(s, pat, 0);
      0
    else
      var k := IndexOf(s[1..], pat);
      OccursInTail(s, pat);
      if k < 0 then -1 else k + 1
  }

  lemma OccursInTail(s: string, pat: string)
    requires |s| > 0
    ensures forall j :: 1 <= j <= |s| ==> (OccursAt(s, pat, j) <==> OccursAt(s[1..], pat, j - 1))
  {
    forall j | 1 <= j <= |s| ensures OccursAt(s, pat, j) <==> OccursAt(s[1..], pat, j - 1) {
      if j + |pat| <= |s| {
        var a, b := s[j..j + |pat|], s[1..][j - 1..j - 1 + |pat|];
        assert |a| == |b|;
        assert forall t :: 0 <= t < |a| ==> a[t] == s[j + t] == b[t];
        assert a == b;
      }
    }
  }

  /** `s.includes(pat)` */
  predicate Includes(s: string, pat: string)
  {
    IndexOf(s, pat) >= 0
  }

  lemma IncludesIff(s: string, pat: string)
    ensures Includes(s, pat) <==> exists j :: OccursAt(s, pat, j)
  {
    if !Includes(s, pat) {
      forall j ensures !OccursAt(s, pat, j) {
        if 0 <= j <= |s| { } 
      }
    }
  }

  /** An occurrence with none before it is the one `indexOf` reports. */
  lemma FirstOccurrence(s: string, pat: string, k: int)
    requires OccursAt(s, pat, k)
    requires forall j :: 0 <= j < k ==> !OccursAt(s, pat, j)
    ensures IndexOf(s, pat) == k
  {
    var r := IndexOf(s, pat);
    assert r != -1;
  }

  /** If the first character of `pat` never appears in `s`, `pat` does not occur in `s`. */
  lemma NoOccurrenceWithoutFirstChar(s: string, pat: string, j: int)
    requires |pat| > 0
    requires pat[0] !in s
    ensures !OccursAt(s, pat, j)
  {
    if 0 <= j && j + |pat| <= |s| {
      assert s[j..j + |pat|][0] == s[j] && s[j] in s;
    }
  }

  // ---------------------------------------------------------------------
  // replace
  // ---------------------------------------------------------------------

  /** `s.replace(pat, '')` with a string pattern: only the FIRST occurrence is removed. */
  function RemoveFirst(s: string, pat: string): (r: string)
    ensures !Includes(s, pat) ==> r == s
    ensures Includes(s, pat) ==> |r| == |s| - |pat|
    ensures Includes(s, pat) ==>
      var i := IndexOf(s, pat);
      && OccursAt(s, pat, i) && (forall j :: 0 <= j < i ==> !OccursAt(s, pat, j))
      && r == s[..i] + s[i + |pat|..]
  {
    var i := IndexOf(s, pat);
    if i < 0 then s else s[..i] + s[i + |pat|..]
  }

  /** `s.replace(/from/g, to)` for a single literal character. */
  function ReplaceAllChar(s: string, from: char, to: char): (r: string)
    ensures |r| == |s|
    ensures forall i :: 0 <= i < |s| ==> r[i] == (if s[i] == from then to else s[i])
  {
    seq(|s|, i requires 0 <= i < |s| => if s[i] == from then to else s[i])
  }

  /**
    Replacing a character that neither the pattern nor its replacement
    contains does not move the pattern's occurrences.
  */
  lemma OccursAtMapped(s: string, pat: string, from: char, to: char, j: int)
    requires from !in pat && to !in pat
    ensures OccursAt(ReplaceAllChar(s, from, to), pat, j) <==> OccursAt(s, pat, j)
  {
    var t := ReplaceAllChar(s, from, to);
    if 0 <= j && j + |pat| <= |s| {
      var a, b := s[j..j + |pat|], t[j..j + |pat|];
      assert forall k :: 0 <= k < |pat| ==> a[k] == s[j + k] && b[k] == t[j + k];
      if a == pat {
        forall k | 0 <= k < |pat| ensures b[k] == pat[k] {
          assert pat[k] in pat;
        }
      }
      if b == pat {
        forall k | 0 <= k < |pat| ensures a[k] == pat[k] {
          assert pat[k] in pat;
        }
      }
    }
  }

  /** The first occurrence is found at the same index after such a replacement. */
  lemma IndexOfMapped(s: string, pat: string, from: char, to: char)
    requires from !in pat && to !in pat
    ensures IndexOf(ReplaceAllChar(s, from, to), pat) == IndexOf(s, pat)
  {
    var t := ReplaceAllChar(s, from, to);
    var k := IndexOf(s, pat);
    if k >= 0 {
      OccursAtMapped(s, pat, from, to, k);
      forall j | 0 <= j < k ensures !OccursAt(t, pat, j) {
        OccursAtMapped(s, pat, from, to, j);
      }
      FirstOccurrence(t, pat, k);
    } else {
      forall j | 0 <= j <= |t| ensures !OccursAt(t, pat, j) {
        OccursAtMapped(s, pat, from, to, j);
      }
    }
  }

  /**
    Removing the first `pat` and replacing every `from` by `to` can be done
    in either order when `pat` contains neither character.
  */
  lemma RemoveFirstCommutes(s: string, pat: string, from: char, to: char)
    requires from !in pat && to !in pat
    ensures RemoveFirst(ReplaceAllChar(s, from, to), pat) == ReplaceAllChar(RemoveFirst(s, pat), from, to)
  {
    IndexOfMapped(s, pat, from, to);
    var k := IndexOf(s, pat);
    if k >= 0 {
      assert k + |pat| <= |s|;
      CutMapped(s, k, k + |pat|, from, to);
    }
  }

  lemma CutMapped(s: string, i: nat, j: nat, from: char, to: char)
    requires i <= j <= |s|
    ensures var t := ReplaceAllChar(s, from, to);
      t[..i] + t[j..] == ReplaceAllChar(s[..i] + s[j..], from, to)
  {
    var t := ReplaceAllChar(s, from, to);
    var lhs := t[..i] + t[j..];
    var cut := s[..i] + s[j..];
    var rhs := ReplaceAllChar(cut, from, to);
    assert |lhs| == |rhs|;
    forall x | 0 <= x < |lhs| ensures lhs[x] == rhs[x] {
      if x < i {
        assert lhs[x] == t[x] && cut[x] == s[x];
      } else {
        assert lhs[x] == t[x - i + j] && cut[x] == s[x - i + j];
      }
    }
  }

  // ---------------------------------------------------------------------
  // s.replace(/\b\w/g, l => l.toUpperCase())
  // ---------------------------------------------------------------------

  /**
    Upper-cases every word character that starts a word: a `\w` character at
    the start of the string or right after a non-word character.
    `afterWord` says whether the character before `s` was a word character.
  */
  function CapitaliseFrom(s: string, afterWord: bool): (r: string)
    ensures |r| == |s|
    ensures |s| > 0 ==> r[0] == (if IsWordChar(s[0]) && !afterWord then UpperChar(s[0]) else s[0])
    ensures forall i {:trigger r[i]} :: 1 <= i < |s| ==>
      r[i] == (if IsWordChar(s[i]) && !IsWordChar(s[i - 1]) then UpperChar(s[i]) else s[i])
  {
    if s == [] then []
    else
      var rest := CapitaliseFrom(s[1..], IsWordChar(s[0]));
      assert forall i :: 1 <= i < |s| ==> s[1..][i - 1] == s[i];
      [if IsWordChar(s[0]) && !afterWord then UpperChar(s[0]) else s[0]] + rest
  }

  function Capitalise(s: string): (r: string)
    ensures |r| == |s|
    ensures forall i {:trigger r[i]} :: 0 <= i < |s| ==>
      r[i] == (if IsWordChar(s[i]) && (i == 0 || !IsWordChar(s[i - 1])) then UpperChar(s[i]) else s[i])
  {
    CapitaliseFrom(s, false)
  }

  lemma UpperKeepsWordChar(c: char)
    ensures IsWordChar(UpperChar(c)) == IsWordChar(c)
  {
  }

  /** Upper-casing keeps word characters word characters, so capitalising twice changes nothing more. */
  lemma CapitaliseIdempotent(s: string)
    ensures Capitalise(Capitalise(s)) == Capitalise(s)
  {
    var once := Capitalise(s);
    var twice := Capitalise(once);
    forall i | 0 <= i < |s| ensures twice[i] == once[i] {
      UpperKeepsWordChar(s[i]);
      assert IsWordChar(once[i]) == IsWordChar(s[i]);
      if i > 0 {
        UpperKeepsWordChar(s[i - 1]);
        assert IsWordChar(once[i - 1]) == IsWordChar(s[i - 1]);
      }
      if IsWordChar(s[i]) && (i == 0 || !IsWordChar(s[i - 1])) {
        assert UpperChar(UpperChar(s[i])) == UpperChar(s[i]);
      }
    }
  }

  // ---------------------------------------------------------------------
  // join / split
  // ---------------------------------------------------------------------

  /** `parts.join(sep)` */
  function Join(parts: seq<string>, sep: string): (r: string)
    ensures |parts| == 1 ==> r == parts[0]
    ensures parts == [] ==> r == ""
  {
    if parts == [] then ""
    else if |parts| == 1 then parts[0]
    else parts[0] + sep + Join(parts[1..], sep)
  }

  /** `s.split(sep)` for a non-empty separator. */
  function SplitOn(s: string, sep: string): seq<string>
    requires |sep| > 0
    decreases |s|
  {
    var i := IndexOf(s, sep);
    if i < 0 then [s] else [s[..i]] + SplitOn(s[i + |sep|..], sep)
  }

  /**
    Joining and splitting again gives the parts back, provided no part
    contains the separator's first character.
  */
  /** Splitting at a separator that the first part cannot contain cuts off exactly that part. */
  lemma SplitAtFirst(p: string, sep: string, rest: string)
    requires |sep| > 0 && sep[0] !in p
    ensures SplitOn(p + sep + rest, sep) == [p] + SplitOn(rest, sep)
  {
    var s := p + sep + rest;
    assert s[|p|..|p| + |sep|] == sep;
    forall j | 0 <= j < |p| ensures !OccursAt(s, sep, j) {
      assert s[j] == p[j] && p[j] in p;
      if j + |sep| <= |s| {
        assert s[j..j + |sep|][0] == s[j];
      }
    }
    FirstOccurrence(s, sep, |p|);
    assert s[..|p|] == p;
    assert s[|p| + |sep|..] == rest;
  }

  lemma {:induction false} SplitJoin(parts: seq<string>, sep: string)
    requires |parts| > 0 && |sep| > 0
    requires forall k :: 0 <= k < |parts| ==> sep[0] !in parts[k]
    ensures SplitOn(Join(parts, sep), sep) == parts
    decreases |parts|
  {
    var p := parts[0];
    if |parts| == 1 {
      forall j ensures !OccursAt(p, sep, j) { NoOccurrenceWithoutFirstChar(p, sep, j); }
    } else {
      SplitAtFirst(p, sep, Join(parts[1..], sep));
      SplitJoin(parts[1..], sep);
      assert parts == [p] + parts[1..];
    }
  }


  // ---------------------------------------------------------------------
  // String(n) for naturals, and its inverse
  // ---------------------------------------------------------------------

  function Digit(d: nat): (c: char)
    requires d < 10
    ensures IsDigit(c)
  {
    (('0' as int) + d) as char
  }

  function DigitValue(c: char): nat
  {
    if IsDigit(c) then c as int - '0' as int else 0
  }

  /** `String(n)`: decimal digits, no leading zero. */
  function DecimalString(n: nat): (s: string)
    ensures |s| >= 1
    ensures forall i :: 0 <= i < |s| ==> IsDigit(s[i])
    ensures |s| > 1 ==> s[0] != '0'
    decreases n
  {
    if n < 10 then [Digit(n)] else DecimalString(n / 10) + [Digit(n % 10)]
  }

  /** Reads a string of decimal digits back as a number. */
  function ParseDecimal(s: string): nat
    decreases |s|
  {
    if s == [] then 0 else ParseDecimal(s[..|s| - 1]) * 10 + DigitValue(s[|s| - 1])
  }

  lemma {:induction false} ParseDecimalString(n: nat)
    ensures ParseDecimal(DecimalString(n)) == n
    decreases n
  {
    if n >= 10 {
      var s := DecimalString(n);
      assert s[..|s| - 1] == DecimalString(n / 10);
      ParseDecimalString(n / 10);
    }
  }

  lemma DecimalStringInjective(a: nat, b: nat)
    requires DecimalString(a) == DecimalString(b)
    ensures a == b
  {
    ParseDecimalString(a);
    ParseDecimalString(b);
  }

  // ---------------------------------------------------------------------
  // Number(s) for integer literals
  // ---------------------------------------------------------------------

  /** At least one character, and every character a decimal digit. */
  predicate IsDigits(s: string)
  {
    |s| > 0 && forall i :: 0 <= i < |s| ==> IsDigit(s[i])
  }

  /**
    `Number(s)` for the string forms read here: the empty string is 0, an
    optional sign followed by decimal digits (leading zeros allowed) is that
    integer, and anything else is NaN (`None`).
  */
  function StringToNumber(s: string): Option<int>
  {
    if s == "" then Some(0)
    else if IsDigits(s) then Some(ParseDecimal(s))
    else if s[0] == '-' && IsDigits(s[1..]) then Some(-(ParseDecimal(s[1..]) as int))
    else if s[0] == '+' && IsDigits(s[1..]) then Some(ParseDecimal(s[1..]))
    else None
  }

  /** Reading `String(n)` back, with or without a sign, gives `n` or `-n`. */
  lemma StringToNumberOfDecimal(n: nat)
    ensures StringToNumber(DecimalString(n)) == Some(n)
    ensures StringToNumber("-" + DecimalString(n)) == Some(-(n as int))
    ensures StringToNumber("+" + DecimalString(n)) == Some(n)
  {
    var d := DecimalString(n);
    ParseDecimalString(n);
    assert ("-" + d)[1..] == d && ("+" + d)[1..] == d;
  }

  /** A string holding a character that is neither a digit nor a leading sign is NaN. */
  lemma StringToNumberNaN(s: string, k: nat)
    requires k < |s| && !IsDigit(s[k]) && !(k == 0 && (s[0] == '-' || s[0] == '+'))
    ensures StringToNumber(s) == None
  {
    if 0 < k {
      assert s[1..][k - 1] == s[k];
    }
  }
}
