/**
 * The parts of the URL Standard's `URLSearchParams` that the scheme manager
 * uses: an ordered list of name-value pairs, `set`, and `toString`, which
 * serializes with the application/x-www-form-urlencoded byte serializer
 * (section 5.2 of the URL Standard): `*`, `-`, `.`, `_`, digits and ASCII
 * letters pass through, a space becomes `+`, and every other character is
 * written as its UTF-8 bytes in `%XX` form with upper-case hex digits.
 */
module SearchParams {
  import opened Text
  import opened Seqs

  type Param = (string, string)

  // ----- form encoding -----

  /** The characters the form serializer leaves as they are. */
  predicate IsUnreserved(c: char) {
    IsAsciiAlnum(c) || c == '*' || c == '-' || c == '.' || c == '_'
  }

  /** The characters a serialized query string is made of. */
  predicate IsQueryChar(c: char) {
    IsUnreserved(c) || c == '%' || c == '+'
  }

  function HexDigit(d: int): (c: char)
    requires 0 <= d < 16
    ensures IsAsciiAlnum(c)
  {
    if d < 10 then ('0' as int + d) as char else ('A' as int + d - 10) as char
  }

  /** The UTF-8 encoding of one character: one to four bytes. */
  function Utf8(c: char): (bytes: seq<int>)
    ensures 1 <= |bytes| <= 4
    ensures forall i :: 0 <= i < |bytes| ==> 0 <= bytes[i] < 256
    ensures (c as int < 0x80) <==> bytes == [c as int]
  {
    var n := c as int;
    if n < 0x80 then [n]
    else if n < 0x800 then [0xC0 + n / 0x40, 0x80 + n % 0x40]
    else if n < 0x10000 then [0xE0 + n / 0x1000, 0x80 + (n / 0x40) % 0x40, 0x80 + n % 0x40]
    else [0xF0 + n / 0x40000, 0x80 + (n / 0x1000) % 0x40, 0x80 + (n / 0x40) % 0x40, 0x80 + n % 0x40]
  }

  /** `%XX` for each byte. */
  function PercentBytes(bytes: seq<int>): (r: string)
    requires forall i :: 0 <= i < |bytes| ==> 0 <= bytes[i] < 256
    ensures |r| == 3 * |bytes|
    ensures forall i :: 0 <= i < |r| ==> IsQueryChar(r[i])
    decreases |bytes|
  {
    if bytes == [] then ""
    else ['%', HexDigit(bytes[0] / 16), HexDigit(bytes[0] % 16)] + PercentBytes(bytes[1..])
  }

  function EncodeChar(c: char): (r: string)
    ensures r != []
    ensures forall i :: 0 <= i < |r| ==> IsQueryChar(r[i])
    ensures IsUnreserved(c) ==> r == [c]
  {
    if c == ' ' then "+"
    else if IsUnreserved(c) then [c]
    else PercentBytes(Utf8(c))
  }

  /** The form serializer on one string. */
  function FormEncode(s: string): (r: string)
    ensures forall i :: 0 <= i < |r| ==> IsQueryChar(r[i])
    ensures |r| >= |s|
    decreases |s|
  {
    if s == [] then "" else EncodeChar(s[0]) + FormEncode(s[1..])
  }

  /** A string of unreserved characters is its own encoding. */
  lemma {:induction false} FormEncodeUnreserved(s: string)
    requires forall i :: 0 <= i < |s| ==> IsUnreserved(s[i])
    ensures FormEncode(s) == s
    decreases |s|
  {
    if s != [] {
      FormEncodeUnreserved(s[1..]);
      assert s == [s[0]] + s[1..];
    }
  }

  /** An encoded string never holds the query string's delimiters. */
  lemma FormEncodeHasNoDelimiters(s: string)
    ensures '&' !in FormEncode(s) && '=' !in FormEncode(s) && ' ' !in FormEncode(s)
  {
    var r := FormEncode(s);
    forall i | 0 <= i < |r| ensures r[i] != '&' && r[i] != '=' && r[i] != ' ' {
      assert IsQueryChar(r[i]);
    }
  }

  /** `name=value`, both encoded. */
  function EncodePair(p: Param): (r: string)
    ensures '&' !in r
  {
    FormEncodeHasNoDelimiters(p.0);
    FormEncodeHasNoDelimiters(p.1);
    FormEncode(p.0) + "=" + FormEncode(p.1)
  }

  /** Each encoded pair splits at its one `=` back into the encoded name and value. */
  lemma EncodePairSplit(p: Param)
    ensures Split(EncodePair(p), '=') == [FormEncode(p.0), FormEncode(p.1)]
  {
    FormEncodeHasNoDelimiters(p.0);
    FormEncodeHasNoDelimiters(p.1);
    var xs := [FormEncode(p.0), FormEncode(p.1)];
    assert Join(xs, '=') == EncodePair(p) by {
      assert Join(xs[1..], '=') == xs[1];
    }
    SplitJoin(xs, '=');
  }

  function EncodePairs(list: seq<Param>): (r: seq<string>)
    ensures |r| == |list|
    ensures forall i :: 0 <= i < |r| ==> r[i] == EncodePair(list[i])
  {
    seq(|list|, i requires 0 <= i < |list| => EncodePair(list[i]))
  }

  /** `params.toString()`: the encoded pairs joined with `&`. */
  function Serialize(list: seq<Param>): string {
    Join(EncodePairs(list), '&')
  }

  /** The first piece of a join is a prefix of it. */
  lemma JoinStartsWithFirst(xs: seq<string>, c: char)
    requires xs != []
    ensures xs[0] <= Join(xs, c)
  {
  }

  /** The query string is empty exactly when there are no parameters. */
  lemma SerializeEmpty(list: seq<Param>)
    ensures Serialize(list) == "" <==> list == []
  {
    if list != [] {
      var xs := EncodePairs(list);
      JoinStartsWithFirst(xs, '&');
      assert |xs[0]| >= 1;
    }
  }

  /** Splitting a non-empty query string at `&` gives back the encoded pairs in order. */
  lemma SerializeSplit(list: seq<Param>)
    requires list != []
    ensures Split(Serialize(list), '&') == EncodePairs(list)
  {
    SplitJoin(EncodePairs(list), '&');
  }

  // ----- the parameter list -----

  predicate HasName(list: seq<Param>, name: string) {
    exists i :: 0 <= i < |list| && list[i].0 == name
  }

  function NameIsNot(name: string): Param -> bool {
    (p: Param) => p.0 != name
  }

  /** The first pair named `name` takes the value; later pairs with that name are dropped. */
  function SetFirst(list: seq<Param>, name: string, value: string): seq<Param>
    decreases |list|
  {
    if list == [] then []
    else if list[0].0 == name then [(name, value)] + Filter(NameIsNot(name), list[1..])
    else [list[0]] + SetFirst(list[1..], name, value)
  }

  /** `set(name, value)` on the pair list. */
  function SetParam(list: seq<Param>, name: string, value: string): seq<Param> {
    if HasName(list, name) then SetFirst(list, name, value) else list + [(name, value)]
  }

  /** After `set`, one pair carries the name, with the new value, and all other pairs are kept in order. */
  lemma {:induction false} SetParamSpec(list: seq<Param>, name: string, value: string)
    ensures var r := SetParam(list, name, value);
            && Filter(NameIsNot(name), r) == Filter(NameIsNot(name), list)
            && |r| - |Filter(NameIsNot(name), r)| == 1
            && (name, value) in r
            && forall i :: 0 <= i < |r| && r[i].0 == name ==> r[i].1 == value
  {
    var r := SetParam(list, name, value);
    if HasName(list, name) {
      SetFirstSpec(list, name, value);
    } else {
      FilterSnoc(NameIsNot(name), list, (name, value));
      FilterKeepsAll(NameIsNot(name), list);
      assert forall i :: 0 <= i < |list| ==> r[i] == list[i];
    }
  }

  lemma {:induction false} SetFirstSpec(list: seq<Param>, name: string, value: string)
    requires HasName(list, name)
    ensures var r := SetFirst(list, name, value);
            && Filter(NameIsNot(name), r) == Filter(NameIsNot(name), list)
            && |r| - |Filter(NameIsNot(name), r)| == 1
            && (name, value) in r
            && forall i :: 0 <= i < |r| && r[i].0 == name ==> r[i].1 == value
    decreases |list|
  {
    var r := SetFirst(list, name, value);
    var rest := list[1..];
    var kept := Filter(NameIsNot(name), rest);
    if list[0].0 == name {
      assert r == [(name, value)] + kept;
      assert r[1..] == kept;
      FilterKeepsAll(NameIsNot(name), kept);
      assert Filter(NameIsNot(name), r) == kept;
      assert Filter(NameIsNot(name), list) == kept;
      assert r[0] == (name, value);
      forall i | 1 <= i < |r| ensures r[i].0 != name {
        assert NameIsNot(name)(kept[i - 1]);
      }
    } else {
      assert HasName(rest, name) by {
        var i :| 0 <= i < |list| && list[i].0 == name;
        assert rest[i - 1] == list[i];
      }
      SetFirstSpec(rest, name, value);
      var tail := SetFirst(rest, name, value);
      assert r == [list[0]] + tail;
      assert Filter(NameIsNot(name), r) == [list[0]] + Filter(NameIsNot(name), tail);
      assert Filter(NameIsNot(name), list) == [list[0]] + kept;
      assert forall i :: 1 <= i < |r| ==> r[i] == tail[i - 1];
    }
  }

  class URLSearchParams {
    var list: seq<Param>

    constructor ()
      ensures list == []
    {
      list := [];
    }

    method Set(name: string, value: string)
      modifies this
      ensures list == SetParam(old(list), name, value)
    {
      list := SetParam(list, name, value);
    }

    function ToString(): string
      reads this
    {
      Serialize(list)
    }
  }
}
