/**
 * Query-string handling as the browser does it: `encodeURIComponent`, and the lookup
 * `URLSearchParams.get` performs on a URL (cut the fragment, take the text after the first
 * `?`, split on `&`, split each pair at its first `=`, decode both halves).
 */
module UrlQuery {
  import opened Wrappers

  /** The characters `encodeURIComponent` leaves alone. Characters beyond ASCII are kept
      too: the browser's percent-encoding of them is undone by the page's decoding. */
  predicate IsUnreserved(c: char) {
    ('A' <= c <= 'Z') || ('a' <= c <= 'z') || ('0' <= c <= '9')
    || c in "-_.!~*'()" || c as int >= 128
  }

  /** An upper-case hexadecimal digit. */
  function HexDigit(n: nat): (c: char)
    requires n < 16
  {
    if n < 10 then ('0' as int + n) as char else ('A' as int + n - 10) as char
  }

  /** The value of a hexadecimal digit of either case. */
  function HexValue(c: char): Option<nat> {
    if '0' <= c <= '9' then Some(c as int - '0' as int)
    else if 'A' <= c <= 'F' then Some(c as int - 'A' as int + 10)
    else if 'a' <= c <= 'f' then Some(c as int - 'a' as int + 10)
    else None
  }

  lemma HexValueOfDigit(n: nat)
    requires n < 16
    ensures HexValue(HexDigit(n)) == Some(n)
  {
  }

  /** One character as `encodeURIComponent` writes it. */
  function EncodeChar(c: char): (e: string)
    ensures |e| == 1 || |e| == 3
  {
    if IsUnreserved(c) then [c]
    else ['%', HexDigit(c as int / 16), HexDigit(c as int % 16)]
  }

  /** `encodeURIComponent`. */
  function Encode(s: string): (e: string)
    ensures |s| <= |e| <= 3 * |s|
    decreases |s|
  {
    if |s| == 0 then "" else EncodeChar(s[0]) + Encode(s[1..])
  }

  /** The percent-decoding `URLSearchParams` applies to names and values: `+` is a space,
      `%XX` the ASCII character with that code, anything else itself. */
  function Decode(s: string): (d: string)
    ensures |d| <= |s|
    decreases |s|
  {
    if |s| == 0 then ""
    else if s[0] == '+' then " " + Decode(s[1..])
    else if s[0] == '%' && |s| >= 3 && HexValue(s[1]).Some? && HexValue(s[2]).Some?
            && HexValue(s[1]).value < 8 then
      [(HexValue(s[1]).value * 16 + HexValue(s[2]).value) as char] + Decode(s[3..])
    else [s[0]] + Decode(s[1..])
  }

  /** Decoding undoes the encoding of one character in front of any text. */
  lemma DecodeEncodeChar(c: char, t: string)
    ensures Decode(EncodeChar(c) + t) == [c] + Decode(t)
  {
    var e := EncodeChar(c) + t;
    if IsUnreserved(c) {
      assert e[1..] == t;
    } else {
      HexValueOfDigit(c as int / 16);
      HexValueOfDigit(c as int % 16);
      assert e[3..] == t;
    }
  }

  /** Decoding inverts the encoding, for every string. */
  lemma {:induction false} DecodeEncode(s: string)
    ensures Decode(Encode(s)) == s
    decreases |s|
  {
    if |s| > 0 {
      DecodeEncodeChar(s[0], Encode(s[1..]));
      DecodeEncode(s[1..]);
      assert [s[0]] + s[1..] == s;
    }
  }

  /** The encoding never writes the characters that end a query pair, a query or a URL. */
  lemma {:induction false} EncodeAvoids(s: string)
    ensures '&' !in Encode(s) && '#' !in Encode(s) && '=' !in Encode(s)
    decreases |s|
  {
    if |s| > 0 {
      EncodeAvoids(s[1..]);
      assert Encode(s) == EncodeChar(s[0]) + Encode(s[1..]);
    }
  }

  /** Text made of unreserved characters is written as it is. */
  lemma {:induction false} EncodePlain(s: string)
    requires forall i :: 0 <= i < |s| ==> IsUnreserved(s[i])
    ensures Encode(s) == s
    decreases |s|
  {
    if |s| > 0 {
      EncodePlain(s[1..]);
      assert [s[0]] + s[1..] == s;
    }
  }

  /** Text without `+` and `%` decodes to itself. */
  lemma {:induction false} DecodePlain(s: string)
    requires '+' !in s && '%' !in s
    ensures Decode(s) == s
    decreases |s|
  {
    if |s| > 0 {
      assert s[0] != '+' && s[0] != '%';
      DecodePlain(s[1..]);
      assert [s[0]] + s[1..] == s;
    }
  }

  /** Plain text in front is decoded as it is. */
  lemma {:induction false} DecodePlainPrefix(a: string, t: string)
    requires '+' !in a && '%' !in a
    ensures Decode(a + t) == a + Decode(t)
    decreases |a|
  {
    if |a| > 0 {
      assert a[0] != '+' && a[0] != '%';
      var s := a + t;
      assert s[0] == a[0] && s[1..] == a[1..] + t;
      assert Decode(s) == [a[0]] + Decode(s[1..]);
      DecodePlainPrefix(a[1..], t);
      assert [a[0]] + a[1..] + Decode(t) == a + Decode(t);
    } else {
      assert a + t == t;
    }
  }

  /** The index of the first `c` in `s`, or `|s|` without one. */
  function IndexOf(s: string, c: char): (i: nat)
    ensures i <= |s|
    ensures i < |s| ==> s[i] == c
    ensures forall k :: 0 <= k < i ==> s[k] != c
    decreases |s|
  {
    if |s| == 0 then 0 else if s[0] == c then 0 else 1 + IndexOf(s[1..], c)
  }

  lemma IndexOfAbsent(s: string, c: char)
    requires c !in s
    ensures IndexOf(s, c) == |s|
  {
  }

  lemma IndexOfFirst(a: string, c: char, b: string)
    requires c !in a
    ensures IndexOf(a + [c] + b, c) == |a|
  {
    var s := a + [c] + b;
    assert s[|a|] == c;
    assert forall k :: 0 <= k < |a| ==> s[k] == a[k];
  }

  /** `s.split(sep)`. */
  function Split(s: string, sep: char): (parts: seq<string>)
    ensures |parts| >= 1
    decreases |s|
  {
    var i := IndexOf(s, sep);
    if i == |s| then [s] else [s[..i]] + Split(s[i + 1..], sep)
  }

  lemma SplitAbsent(s: string, sep: char)
    requires sep !in s
    ensures Split(s, sep) == [s]
  {
    IndexOfAbsent(s, sep);
  }

  lemma SplitFirst(a: string, sep: char, b: string)
    requires sep !in a
    ensures Split(a + [sep] + b, sep) == [a] + Split(b, sep)
  {
    var s := a + [sep] + b;
    IndexOfFirst(a, sep, b);
    assert s[..|a|] == a && s[|a| + 1..] == b;
  }

  /** The value of the first pair whose decoded name is `key`. */
  function FirstValue(pairs: seq<string>, key: string): Option<string>
    decreases |pairs|
  {
    if |pairs| == 0 then None
    else
      var p := pairs[0];
      var eq := IndexOf(p, '=');
      if Decode(p[..eq]) == key then Some(if eq == |p| then "" else Decode(p[eq + 1..]))
      else FirstValue(pairs[1..], key)
  }

  /** `new URL(url).searchParams.get(key)`. */
  function QueryGet(url: string, key: string): (v: Option<string>)
    ensures '?' !in url ==> v.None?
  {
    var page := url[..IndexOf(url, '#')];
    var q := IndexOf(page, '?');
    if q == |page| then None else FirstValue(Split(page[q + 1..], '&'), key)
  }

  /** Whatever follows the first `#` does not change what `get` returns. */
  lemma FragmentIgnored(page: string, fragment: string, key: string)
    requires '#' !in page
    ensures QueryGet(page + ['#'] + fragment, key) == QueryGet(page, key)
  {
    IndexOfFirst(page, '#', fragment);
    IndexOfAbsent(page, '#');
    assert (page + ['#'] + fragment)[..|page|] == page == page[..|page|];
  }

  /** With no fragment, `get` looks in the pairs after the first `?`. */
  lemma QueryAfterMark(before: string, query: string, key: string)
    requires '?' !in before && '#' !in before && '#' !in query
    ensures QueryGet(before + ['?'] + query, key) == FirstValue(Split(query, '&'), key)
  {
    var url := before + ['?'] + query;
    assert forall k :: 0 <= k < |url| ==> url[k] == '?' || url[k] in before || url[k] in query;
    IndexOfAbsent(url, '#');
    assert url[..|url|] == url;
    IndexOfFirst(before, '?', query);
    assert url[|before| + 1..] == query;
  }
}
