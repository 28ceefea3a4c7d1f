/** The blood-group key the donor tally uses: `toUpperCase().trim()`, on
    ASCII. Java's `trim` drops every leading and trailing character whose
    code is at most that of the space character. */
module GroupNames {

  predicate IsBlank(c: char) {
    c <= ' '
  }

  predicate IsLowerAscii(c: char) {
    'a' <= c <= 'z'
  }

  /** `Character.toUpperCase` on ASCII: a lower-case letter becomes the
      capital 32 code points below it; every other character is kept. */
  function UpperChar(c: char): (u: char)
    ensures !IsLowerAscii(u)
    ensures IsLowerAscii(c) ==> u as int == c as int - 32
    ensures !IsLowerAscii(c) ==> u == c
    ensures IsBlank(u) <==> IsBlank(c)
  {
    if IsLowerAscii(c) then (c as int - 32) as char else c
  }

  /** `String.toUpperCase`, restricted to ASCII letters. */
  function ToUpperCase(s: string): (r: string)
    ensures |r| == |s|
    ensures forall i :: 0 <= i < |s| ==> r[i] == UpperChar(s[i])
  {
    seq(|s|, i requires 0 <= i < |s| => UpperChar(s[i]))
  }

  /** `String.trim`: drops a blank from the front while there is one, then
      from the back. */
  function Trim(s: string): (r: string)
    ensures |r| <= |s|
    ensures |r| > 0 ==> !IsBlank(r[0]) && !IsBlank(r[|r| - 1])
  {
    if |s| > 0 && IsBlank(s[0]) then Trim(s[1..])
    else if |s| > 0 && IsBlank(s[|s| - 1]) then Trim(s[..|s| - 1])
    else s
  }

  /** The normalised group: upper-cased, then trimmed. It has no blank at
      either end and no lower-case letter. */
  function Normalize(s: string): (r: string)
    ensures |r| <= |s|
    ensures |r| > 0 ==> !IsBlank(r[0]) && !IsBlank(r[|r| - 1])
    ensures forall i :: 0 <= i < |r| ==> !IsLowerAscii(r[i])
  {
    TrimUpper(ToUpperCase(s));
    Trim(ToUpperCase(s))
  }

  lemma SliceOfTail<T>(s: seq<T>, a: nat, b: nat)
    requires a <= b < |s|
    ensures s[1..][a..b] == s[a + 1..b + 1]
  {
  }

  lemma SliceOfInit<T>(s: seq<T>, a: nat, b: nat)
    requires a <= b < |s|
    ensures s[..|s| - 1][a..b] == s[a..b]
  {
  }

  /** The two cut points of `trim`. */
  lemma {:induction false} TrimCut(s: string) returns (a: nat, b: nat)
    ensures a <= b <= |s| && Trim(s) == s[a..b]
    ensures forall i :: 0 <= i < a ==> IsBlank(s[i])
    ensures forall i :: b <= i < |s| ==> IsBlank(s[i])
    ensures a < b ==> !IsBlank(s[a]) && !IsBlank(s[b - 1])
    decreases |s|
  {
    if |s| > 0 && IsBlank(s[0]) {
      var t := s[1..];
      var a', b' := TrimCut(t);
      a, b := a' + 1, b' + 1;
      SliceOfTail(s, a', b');
      forall i | 0 <= i < a
        ensures IsBlank(s[i])
      {
        if i > 0 {
          assert s[i] == t[i - 1];
        }
      }
      forall i | b <= i < |s|
        ensures IsBlank(s[i])
      {
        assert s[i] == t[i - 1];
      }
      if a < b {
        assert s[a] == t[a'] && s[b - 1] == t[b' - 1];
      }
    } else if |s| > 0 && IsBlank(s[|s| - 1]) {
      var t := s[..|s| - 1];
      a, b := TrimCut(t);
      SliceOfInit(s, a, b);
      if |t| > 0 {
        assert t[0] == s[0];
      }
      forall i | b <= i < |s|
        ensures IsBlank(s[i])
      {
        if i < |t| {
          assert s[i] == t[i];
        }
      }
      if a < b {
        assert s[a] == t[a] && s[b - 1] == t[b - 1];
      }
    } else {
      a, b := 0, |s|;
      assert s[0..|s|] == s;
    }
  }

  /** Trimming a string with no lower-case letter leaves none. */
  lemma TrimUpper(u: string)
    requires forall i :: 0 <= i < |u| ==> !IsLowerAscii(u[i])
    ensures forall i :: 0 <= i < |Trim(u)| ==> !IsLowerAscii(Trim(u)[i])
  {
    var a, b := TrimCut(u);
    forall i | 0 <= i < |Trim(u)|
      ensures !IsLowerAscii(Trim(u)[i])
    {
      assert Trim(u)[i] == u[a + i];
    }
  }

  /** `trim` returns the input with its leading and trailing blanks cut off:
      a slice s[a..b] where everything before a and from b on is blank, and
      which itself neither starts nor ends with a blank. */
  lemma TrimSpec(s: string)
    ensures exists a, b :: (0 <= a <= b <= |s| && Trim(s) == s[a..b]
      && (forall i :: 0 <= i < a ==> IsBlank(s[i]))
      && (forall i :: b <= i < |s| ==> IsBlank(s[i]))
      && (a < b ==> !IsBlank(s[a]) && !IsBlank(s[b - 1])))
  {
    var a, b := TrimCut(s);
  }

  /** The tally key is the donor's group upper-cased, with the blanks at
      either end of the group cut off. */
  lemma NormalizeSpec(s: string)
    ensures exists a, b :: (0 <= a <= b <= |s| && Normalize(s) == ToUpperCase(s)[a..b]
      && (forall i :: 0 <= i < a ==> IsBlank(s[i]))
      && (forall i :: b <= i < |s| ==> IsBlank(s[i]))
      && (a < b ==> !IsBlank(s[a]) && !IsBlank(s[b - 1])))
  {
    var u := ToUpperCase(s);
    var a, b := TrimCut(u);
    assert Normalize(s) == u[a..b];
    forall i | 0 <= i < |s|
      ensures IsBlank(u[i]) <==> IsBlank(s[i])
    {
      assert u[i] == UpperChar(s[i]);
    }
  }

  /** A string with no blank at either end is its own trim. */
  lemma TrimOfTrimmed(s: string)
    requires |s| > 0 ==> !IsBlank(s[0]) && !IsBlank(s[|s| - 1])
    ensures Trim(s) == s
  {
  }

  /** A normalised group is its own normal form, so re-normalising a tally
      key gives back the key. */
  lemma NormalizeIdempotent(s: string)
    ensures Normalize(Normalize(s)) == Normalize(s)
  {
    var r := Normalize(s);
    assert ToUpperCase(r) == r;
    TrimOfTrimmed(r);
  }

  /** Case and surrounding blanks do not matter to the key. */
  lemma NormalizeExample()
    ensures Normalize(" ab+\t") == "AB+"
  {
    var u := ToUpperCase(" ab+\t");
    assert u == " AB+\t";
    assert u[1..] == "AB+\t";
    assert Trim("AB+\t") == Trim("AB+");
  }
}
