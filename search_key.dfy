/**
 The city search box: `value.trim().toLowerCase()`, and the rule that an
 empty result is refused before any lookup is attempted.
 */
module SearchKey {
  import opened Wrappers

  /** The characters `String.prototype.trim` strips: ECMAScript's WhiteSpace
      (tab, vertical tab, form feed, space, no-break space, byte order mark and
      the Unicode space separators) and its LineTerminators. */
  predicate IsJsSpace(c: char)
  {
    || '\t' <= c <= '\r'  // tab, line feed, vertical tab, form feed, carriage return
    || c == ' ' || c == '\U{A0}' || c == '\U{1680}'
    || '\U{2000}' <= c <= '\U{200A}'
    || c == '\U{2028}' || c == '\U{2029}' || c == '\U{202F}' || c == '\U{205F}'
    || c == '\U{3000}' || c == '\U{FEFF}'
  }

  predicate IsAsciiUpper(c: char)
  {
    'A' <= c <= 'Z'
  }

  /** `toLowerCase` on one character, for the ASCII letters. */
  function LowerChar(c: char): (r: char)
    ensures !IsAsciiUpper(r)
    ensures IsJsSpace(r) <==> IsJsSpace(c)
    ensures !IsAsciiUpper(c) ==> r == c
    ensures IsAsciiUpper(c) ==> r as int == c as int + 32
  {
    if IsAsciiUpper(c) then (c as int + 32) as char else c
  }

  /** Leading spaces removed. */
  function TrimStart(s: string): (r: string)
    ensures |r| <= |s| && r == s[|s| - |r|..]
    ensures r == [] || !IsJsSpace(r[0])
    ensures forall k :: 0 <= k < |s| - |r| ==> IsJsSpace(s[k])
  {
    if s != [] && IsJsSpace(s[0]) then TrimStart(s[1..]) else s
  }

  /** Trailing spaces removed. */
  function TrimEnd(s: string): (r: string)
    ensures |r| <= |s| && r == s[..|r|]
    ensures r == [] || !IsJsSpace(r[|r| - 1])
    ensures forall k :: |r| <= k < |s| ==> IsJsSpace(s[k])
  {
    if s != [] && IsJsSpace(s[|s| - 1]) then TrimEnd(s[..|s| - 1]) else s
  }

  /** `String.prototype.trim`. */
  function Trim(s: string): string
  {
    TrimEnd(TrimStart(s))
  }

  /** `String.prototype.toLowerCase`, for the ASCII letters. */
  function ToLower(s: string): (r: string)
    ensures |r| == |s|
    ensures forall k :: 0 <= k < |s| ==> r[k] == LowerChar(s[k])
  {
    if s == [] then [] else [LowerChar(s[0])] + ToLower(s[1..])
  }

  /** A key as the search handler passes it on: non-empty, without spaces at
      either end, and without upper-case letters. */
  predicate IsNormalKey(k: string)
  {
    k != [] && !IsJsSpace(k[0]) && !IsJsSpace(k[|k| - 1])
    && forall i :: 0 <= i < |k| ==> !IsAsciiUpper(k[i])
  }

  /** The search button's handler: the trimmed, lower-cased input, or None
      (the "Please enter a city name." alert) when nothing is left. */
  function NormalizeKey(input: string): (r: Option<string>)
    ensures r.None? <==> forall k :: 0 <= k < |input| ==> IsJsSpace(input[k])
    ensures r.Some? ==> IsNormalKey(r.value)
  {
    var t := Trim(input);
    var key := ToLower(t);
    TrimEmptyIffAllSpace(input);
    if key == [] then None
    else
      assert key[0] == LowerChar(t[0]) && key[|key| - 1] == LowerChar(t[|t| - 1]);
      Some(key)
  }

  lemma TrimEmptyIffAllSpace(s: string)
    ensures Trim(s) == [] <==> forall k :: 0 <= k < |s| ==> IsJsSpace(s[k])
  {
    var t := TrimStart(s);
    if t != [] {
      assert !IsJsSpace(t[0]);
      assert TrimEnd(t) != [];
      assert s[|s| - |t|] == t[0];
    }
  }

  /** Trimming is idempotent on its own output. */
  lemma {:induction false} TrimmedIsFixed(k: string)
    requires k == [] || (!IsJsSpace(k[0]) && !IsJsSpace(k[|k| - 1]))
    ensures Trim(k) == k
  {
  }

  /** Lower-casing leaves a key without upper-case letters as it is. */
  lemma LowerIsFixed(k: string)
    requires forall i :: 0 <= i < |k| ==> !IsAsciiUpper(k[i])
    ensures ToLower(k) == k
  {
  }

  /** Normalising an already-normalised key gives it back: pressing search
      again with the handler's own output looks up the same city. */
  lemma NormalizeIdempotent(input: string)
    requires NormalizeKey(input).Some?
    ensures NormalizeKey(NormalizeKey(input).value) == NormalizeKey(input)
  {
    var k := NormalizeKey(input).value;
    TrimmedIsFixed(k);
    LowerIsFixed(k);
  }

  /** The handler's key is the lower-cased input, once the padding is gone. */
  lemma NormalizePaddedKey(pre: string, k: string, post: string)
    requires forall i :: 0 <= i < |pre| ==> IsJsSpace(pre[i])
    requires forall i :: 0 <= i < |post| ==> IsJsSpace(post[i])
    requires k != [] && !IsJsSpace(k[0]) && !IsJsSpace(k[|k| - 1])
    ensures NormalizeKey(pre + k + post) == Some(ToLower(k))
  {
    PaddingIgnored(pre, k, post);
  }

  /** Typing "  Salzburg " in the search box looks up "salzburg". */
  lemma CapitalisedSearchFindsKey()
    ensures NormalizeKey("  Salzburg ") == Some("salzburg")
  {
    var pre, k, post := "  ", "Salzburg", " ";
    assert "  Salzburg " == pre + k + post;
    NormalizePaddedKey(pre, k, post);
    SalzburgLowered();
  }

  lemma SalzburgLowered()
    ensures ToLower("Salzburg") == "salzburg"
  {
    var k := "Salzburg";
    assert k[1..] == "salzburg"[1..];
    LowerIsFixed(k[1..]);
  }

  /** Typing "Constructor" in the search box looks up "constructor". */
  lemma CapitalisedConstructorKey()
    ensures NormalizeKey("Constructor") == Some("constructor")
  {
    var k := "Constructor";
    assert k == [] + k + [];
    NormalizePaddedKey([], k, []);
    ConstructorLowered();
  }

  lemma ConstructorLowered()
    ensures ToLower("Constructor") == "constructor"
  {
    var k := "Constructor";
    assert k[1..] == "constructor"[1..];
    LowerIsFixed(k[1..]);
  }

  /** Surrounding spaces never change which city is searched for. */
  lemma {:induction false} PaddingIgnored(pre: string, k: string, post: string)
    requires forall i :: 0 <= i < |pre| ==> IsJsSpace(pre[i])
    requires forall i :: 0 <= i < |post| ==> IsJsSpace(post[i])
    requires k == [] || (!IsJsSpace(k[0]) && !IsJsSpace(k[|k| - 1]))
    ensures Trim(pre + k + post) == k
  {
    var s := pre + k + post;
    var a := TrimStart(s);
    if k == [] {
      TrimEmptyIffAllSpace(s);
    } else {
      assert s[|pre|] == k[0];
      assert |a| == |k| + |post|;
      assert a == k + post;
      var b := TrimEnd(a);
      assert a[|k| - 1] == k[|k| - 1];
      assert |b| == |k|;
    }
  }

  /** Hence the handler looks up the same key however much space surrounds
      the input. */
  lemma NormalizeIgnoresPadding(pre: string, k: string, post: string)
    requires forall i :: 0 <= i < |pre| ==> IsJsSpace(pre[i])
    requires forall i :: 0 <= i < |post| ==> IsJsSpace(post[i])
    requires k == [] || (!IsJsSpace(k[0]) && !IsJsSpace(k[|k| - 1]))
    ensures NormalizeKey(pre + k + post) == NormalizeKey(k)
  {
    PaddingIgnored(pre, k, post);
    TrimmedIsFixed(k);
  }
}
