/**
 * Character and string helpers shared by the pages: ASCII case mapping,
 * JavaScript's `String.prototype.includes`, and the camelCase field label
 * of the payment form.
 */
module Text {

  predicate IsUpper(c: char) { 'A' <= c <= 'Z' }

  predicate IsLower(c: char) { 'a' <= c <= 'z' }

  predicate IsLetter(c: char) { IsUpper(c) || IsLower(c) }

  predicate IsDigit(c: char) { '0' <= c <= '9' }

  function LowerChar(c: char): char {
    if IsUpper(c) then (c as int + 32) as char else c
  }

  /** `toLowerCase`, restricted to the ASCII letters. */
  function ToLower(s: string): string {
    seq(|s|, i requires 0 <= i < |s| => LowerChar(s[i]))
  }

  lemma ToLowerHasNoUpper(s: string)
    ensures forall i :: 0 <= i < |ToLower(s)| ==> !IsUpper(ToLower(s)[i])
  {
  }

  lemma ToLowerIdempotent(s: string)
    ensures ToLower(ToLower(s)) == ToLower(s)
  {
  }

  predicate HasPrefix(s: string, p: string) {
    |p| <= |s| && s[..|p|] == p
  }

  /** `s.includes(sub)`: computed by scanning the start positions of `s`. */
  function Contains(s: string, sub: string): bool
    decreases |s|
  {
    if HasPrefix(s, sub) then true
    else if s == [] then false
    else Contains(s[1..], sub)
  }

  /** The reference meaning of `includes`: `sub` occurs at some offset of `s`. */
  ghost predicate OccursAt(s: string, sub: string, k: int) {
    0 <= k && k + |sub| <= |s| && s[k..k + |sub|] == sub
  }

  lemma {:induction false} ContainsIff(s: string, sub: string)
    ensures Contains(s, sub) <==> exists k :: OccursAt(s, sub, k)
    decreases |s|
  {
    if HasPrefix(s, sub) {
      assert OccursAt(s, sub, 0);
    } else if s != [] {
      ContainsIff(s[1..], sub);
      assert !OccursAt(s, sub, 0);
      forall k | OccursAt(s[1..], sub, k)
        ensures OccursAt(s, sub, k + 1)
      {
        assert s[k + 1..k + 1 + |sub|] == s[1..][k..k + |sub|];
      }
      forall k | 1 <= k && OccursAt(s, sub, k)
        ensures OccursAt(s[1..], sub, k - 1)
      {
        assert s[1..][k - 1..k - 1 + |sub|] == s[k..k + |sub|];
      }
    }
  }

  /** The empty query is contained in every string (`"abc".includes("")` is true). */
  lemma {:induction false} ContainsEmpty(s: string)
    ensures Contains(s, "")
  {
    assert HasPrefix(s, "");
  }

  /** `key.replace(/([A-Z])/g, " $1")`: a space before every ASCII capital. */
  function SpaceBeforeUpper(s: string): string {
    if s == [] then []
    else (if IsUpper(s[0]) then [' ', s[0]] else [s[0]]) + SpaceBeforeUpper(s[1..])
  }

  /** The payment form's field label: spaced, then lower-cased. */
  function Label(key: string): string {
    ToLower(SpaceBeforeUpper(key))
  }

  function CountUpper(s: string): nat {
    if s == [] then 0 else (if IsUpper(s[0]) then 1 else 0) + CountUpper(s[1..])
  }

  function RemoveSpaces(s: string): string {
    if s == [] then []
    else (if s[0] == ' ' then [] else [s[0]]) + RemoveSpaces(s[1..])
  }

  lemma {:induction false} RemoveSpacesAppend(a: string, b: string)
    ensures RemoveSpaces(a + b) == RemoveSpaces(a) + RemoveSpaces(b)
  {
    if a != [] {
      assert (a + b)[0] == a[0];
      assert (a + b)[1..] == a[1..] + b;
      RemoveSpacesAppend(a[1..], b);
    } else {
      assert a + b == b;
    }
  }

  lemma {:induction false} ToLowerAppend(a: string, b: string)
    ensures ToLower(a + b) == ToLower(a) + ToLower(b)
  {
  }

  /** The label is one character longer than the key for every capital letter in it. */
  lemma {:induction false} LabelLength(key: string)
    ensures |Label(key)| == |key| + CountUpper(key)
  {
    SpaceBeforeUpperLength(key);
  }

  lemma {:induction false} SpaceBeforeUpperLength(s: string)
    ensures |SpaceBeforeUpper(s)| == |s| + CountUpper(s)
  {
    if s != [] {
      SpaceBeforeUpperLength(s[1..]);
    }
  }

  /**
   * Partner of Label: deleting the inserted spaces gives back the key,
   * lower-cased, for every key that has no spaces of its own.
   */
  lemma {:induction false} LabelRoundTrip(key: string)
    requires forall i :: 0 <= i < |key| ==> key[i] != ' '
    ensures RemoveSpaces(Label(key)) == ToLower(key)
  {
    if key != [] {
      var head := if IsUpper(key[0]) then [' ', key[0]] else [key[0]];
      assert SpaceBeforeUpper(key) == head + SpaceBeforeUpper(key[1..]);
      ToLowerAppend(head, SpaceBeforeUpper(key[1..]));
      RemoveSpacesAppend(ToLower(head), Label(key[1..]));
      LabelRoundTrip(key[1..]);
      assert key == [key[0]] + key[1..];
      ToLowerAppend([key[0]], key[1..]);
      if IsUpper(key[0]) {
        assert ToLower(head) == [' ', LowerChar(key[0])];
        assert RemoveSpaces(ToLower(head)) == [LowerChar(key[0])] by {
          assert ToLower(head)[1..] == [LowerChar(key[0])];
          assert LowerChar(key[0]) != ' ';
        }
      } else {
        assert ToLower(head) == [LowerChar(key[0])];
        assert LowerChar(key[0]) != ' ';
      }
    }
  }

  lemma {:induction false} SpaceBeforeUpperAppend(a: string, b: string)
    ensures SpaceBeforeUpper(a + b) == SpaceBeforeUpper(a) + SpaceBeforeUpper(b)
  {
    if a != [] {
      assert (a + b)[0] == a[0];
      assert (a + b)[1..] == a[1..] + b;
      SpaceBeforeUpperAppend(a[1..], b);
    } else {
      assert a + b == b;
    }
  }

  lemma LabelAppend(a: string, b: string)
    ensures Label(a + b) == Label(a) + Label(b)
  {
    SpaceBeforeUpperAppend(a, b);
    ToLowerAppend(SpaceBeforeUpper(a), SpaceBeforeUpper(b));
  }

  /** A key without capitals is its own label. */
  lemma {:induction false} LabelOfLowerKey(key: string)
    requires forall i :: 0 <= i < |key| ==> !IsUpper(key[i])
    ensures Label(key) == key
  {
    if key != [] {
      assert key == [key[0]] + key[1..];
      LabelAppend([key[0]], key[1..]);
      LabelOfLowerKey(key[1..]);
    }
  }

  lemma LabelOfPostalCode()
    ensures Label("postalCode") == "postal code"
  {
    assert SpaceBeforeUpper("postalCode") == "postal Code";
  }

  lemma LabelOfFullName()
    ensures Label("fullName") == "full name"
  {
    assert SpaceBeforeUpper("fullName") == "full Name";
  }
}
