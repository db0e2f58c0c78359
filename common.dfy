/** Values shared by every part of the agent: optional values, the ASCII
    lower-casing that the detectors apply to names and paths, and the
    substring test used by the service auditor. */
module Common {

  /** An optional value: `None` stands for Python's `None` or an absent key. */
  datatype Option<+T> = None | Some(value: T) {
    /** The value, or `default` when there is none (Python's `d.get(k, default)`). */
    function GetOr(default: T): T {
      match this
      case Some(v) => v
      case None => default
    }
  }

  /** Lower-cases one character: `A`..`Z` become `a`..`z`, everything else is kept. */
  function LowerChar(c: char): (r: char)
    ensures 'A' <= c <= 'Z' ==> r as int == c as int + 32
    ensures !('A' <= c <= 'Z') ==> r == c
    ensures !('A' <= r <= 'Z')
  {
    if 'A' <= c <= 'Z' then (c as int + 32) as char else c
  }

  /** `str.lower()` on ASCII text, character by character. */
  function Lower(s: string): (r: string)
  {
    seq(|s|, i requires 0 <= i < |s| => LowerChar(s[i]))
  }

  /** A string is in lower case when lower-casing leaves it as it is. */
  predicate IsLower(s: string) {
    Lower(s) == s
  }

  /** Lower-casing twice is the same as lower-casing once, so every
      result of `Lower` is itself in lower case. */
  lemma LowerIsLower(s: string)
    ensures IsLower(Lower(s))
  {
    assert Lower(Lower(s)) == Lower(s);
  }

  /** A string that is not in lower case is never the lower-cased form of
      anything: a set entry with an upper-case letter can never be hit by a
      lower-cased lookup. */
  lemma {:induction false} NotLowerNeverHit(entry: string, query: string)
    requires !IsLower(entry)
    ensures Lower(query) != entry
  {
    LowerIsLower(query);
  }

  /** Lower-casing distributes over concatenation. */
  lemma LowerAppend(a: string, b: string)
    ensures Lower(a + b) == Lower(a) + Lower(b)
  {
    assert Lower(a + b) == Lower(a) + Lower(b) by {
      forall i | 0 <= i < |a + b|
        ensures Lower(a + b)[i] == (Lower(a) + Lower(b))[i]
      {
        if i < |a| { assert (a + b)[i] == a[i]; } else { assert (a + b)[i] == b[i - |a|]; }
      }
    }
  }

  /** `fragment` starts at position `i` of `text`. */
  ghost predicate OccursAt(text: string, fragment: string, i: int) {
    0 <= i && i + |fragment| <= |text| && text[i..i + |fragment|] == fragment
  }

  /** Python's `fragment in text` on strings: a substring test. */
  function Contains(text: string, fragment: string): bool
    decreases |text|
  {
    |fragment| <= |text| && (text[..|fragment|] == fragment || Contains(text[1..], fragment))
  }

  /** `Contains` holds exactly when `fragment` occurs at some position of `text`. */
  lemma {:induction false} ContainsIffOccurs(text: string, fragment: string)
    ensures Contains(text, fragment) <==> exists i :: OccursAt(text, fragment, i)
    decreases |text|
  {
    if |fragment| <= |text| {
      if text[..|fragment|] == fragment {
        assert OccursAt(text, fragment, 0);
      } else {
        ContainsIffOccurs(text[1..], fragment);
        if Contains(text[1..], fragment) {
          var j :| OccursAt(text[1..], fragment, j);
          assert text[1..][j..j + |fragment|] == text[j + 1..j + 1 + |fragment|];
          assert OccursAt(text, fragment, j + 1);
        } else {
          forall i | OccursAt(text, fragment, i) && i > 0
            ensures OccursAt(text[1..], fragment, i - 1)
          {
            assert text[1..][i - 1..i - 1 + |fragment|] == text[i..i + |fragment|];
          }
        }
      }
    }
  }

  /** A fragment occurs in every string built around it. */
  lemma ContainsInfix(a: string, fragment: string, b: string)
    ensures Contains(a + fragment + b, fragment)
  {
    var text := a + fragment + b;
    assert text[|a|..|a| + |fragment|] == fragment;
    assert OccursAt(text, fragment, |a|);
    ContainsIffOccurs(text, fragment);
  }

  /** Every character of a contained fragment is a character of the text. */
  lemma ContainsChar(text: string, fragment: string, c: char)
    requires Contains(text, fragment)
    requires c in fragment
    ensures c in text
  {
    ContainsIffOccurs(text, fragment);
    var i :| OccursAt(text, fragment, i);
    var k :| 0 <= k < |fragment| && fragment[k] == c;
    assert text[i..i + |fragment|][k] == text[i + k];
  }

  /** A lower-case letter absent from `s` in both casings is absent from `Lower(s)`. */
  lemma LowerAvoids(s: string, c: char)
    requires 'a' <= c <= 'z'
    requires c !in s && (c as int - 32) as char !in s
    ensures c !in Lower(s)
  {
    forall i | 0 <= i < |s| ensures Lower(s)[i] != c {
      assert s[i] in s;
    }
  }

  /** A string with no upper-case letter is in lower case. */
  lemma NoUpperIsLower(s: string)
    requires forall c :: c in s ==> !('A' <= c <= 'Z')
    ensures IsLower(s)
  {
    forall i | 0 <= i < |s| ensures Lower(s)[i] == s[i] {
      assert s[i] in s;
    }
  }
}
