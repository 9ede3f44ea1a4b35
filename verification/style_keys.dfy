/**
 * The camelCase to kebab-case conversion that `setStyleAndAttribute` applies to
 * every style key before it is written to the element's style: each ASCII
 * upper-case letter becomes a dash followed by its lower-case form.
 */
module StyleKeys {

  predicate IsUpper(c: char) { 'A' <= c <= 'Z' }

  predicate IsLower(c: char) { 'a' <= c <= 'z' }

  function ToLower(c: char): char
  {
    if IsUpper(c) then (c as int + 32) as char else c
  }

  function ToUpper(c: char): char
  {
    if IsLower(c) then (c as int - 32) as char else c
  }

  /** Number of ASCII upper-case letters in `s`. */
  function CountUpper(s: string): nat
  {
    if s == [] then 0 else (if IsUpper(s[0]) then 1 else 0) + CountUpper(s[1..])
  }

  predicate NoUpper(s: string)
  {
    forall k :: 0 <= k < |s| ==> !IsUpper(s[k])
  }

  /** What one character of a key turns into. */
  function Piece(c: char): string
  {
    if IsUpper(c) then ['-', ToLower(c)] else [c]
  }

  /**
   * `key.replace(/([A-Z])/g, '-$1').toLowerCase()` on ASCII letters: only
   * `A`-`Z` are lower-cased, so a key with non-ASCII capitals is out of scope.
   */
  function KebabKey(key: string): (r: string)
    ensures |r| == |key| + CountUpper(key)
    ensures NoUpper(r)
  {
    if key == [] then [] else Piece(key[0]) + KebabKey(key[1..])
  }

  /**
   * The reverse direction: a dash followed by an ASCII lower-case letter
   * becomes that letter in upper case; everything else is kept.
   */
  function CamelKey(s: string): string
  {
    if s == [] then []
    else if |s| >= 2 && s[0] == '-' && IsLower(s[1]) then [ToUpper(s[1])] + CamelKey(s[2..])
    else [s[0]] + CamelKey(s[1..])
  }

  /** A key without ASCII capitals is left as it is. */
  lemma {:induction false} KebabKeyKeepsLowerCase(key: string)
    requires NoUpper(key)
    ensures KebabKey(key) == key
  {
    if key != [] {
      KebabKeyKeepsLowerCase(key[1..]);
    }
  }

  /** Converting twice gives the same key as converting once. */
  lemma KebabKeyIdempotent(key: string)
    ensures KebabKey(KebabKey(key)) == KebabKey(key)
  {
    KebabKeyKeepsLowerCase(KebabKey(key));
  }

  /** A camelCase key without dashes is recovered from its kebab-case form. */
  lemma {:induction false} CamelKeyInvertsKebabKey(key: string)
    requires '-' !in key
    ensures CamelKey(KebabKey(key)) == key
  {
    if key != [] {
      assert '-' !in key[1..] by {
        assert forall k :: 0 <= k < |key[1..]| ==> key[1..][k] == key[k + 1];
      }
      CamelKeyInvertsKebabKey(key[1..]);
      var rest := KebabKey(key[1..]);
      var c := key[0];
      if IsUpper(c) {
        var w := ['-', ToLower(c)] + rest;
        assert w[0] == '-' && w[1] == ToLower(c) && w[2..] == rest;
      } else {
        var w := [c] + rest;
        assert w[0] == c && w[1..] == rest;
      }
    }
  }

  /** Keys convert piece by piece: converting a concatenation concatenates the conversions. */
  lemma {:induction false} KebabKeyConcat(a: string, b: string)
    ensures KebabKey(a + b) == KebabKey(a) + KebabKey(b)
  {
    if a != [] {
      assert (a + b)[0] == a[0];
      assert (a + b)[1..] == a[1..] + b;
      KebabKeyConcat(a[1..], b);
    } else {
      assert a + b == b;
    }
  }

  /** `fontSize` in three pieces: a lower-case head, one capital, a lower-case tail. */
  lemma FontSizePieces(head: string, cap: string, tail: string)
    requires head == "font" && cap == "S" && tail == "ize"
    ensures KebabKey(head + cap + tail) == "font-size"
  {
    KebabKeyConcat(head + cap, tail);
    KebabKeyConcat(head, cap);
    KebabKeyKeepsLowerCase(head);
    KebabKeyKeepsLowerCase(tail);
    assert KebabKey(cap) == "-s";
  }

  /** The key `fontSize` is written to the style as `font-size`. */
  lemma FontSizeKey()
    ensures KebabKey("fontSize") == "font-size"
  {
    FontSizePieces("font", "S", "ize");
    assert "font" + "S" + "ize" == "fontSize";
  }
}
