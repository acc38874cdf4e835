/** Webhook signatures: printing the header, reading it back, and what an accepted header proves. */
module Signing {
  import opened Options
  import opened Decimals

  /** HMAC-SHA256 of a content under a secret, as hexadecimal text. */
  type Mac = (string, string) -> string

  predicate IsHex(s: string) {
    forall c :: c in s ==> '0' <= c <= '9' || 'a' <= c <= 'f'
  }

  ghost predicate PrintsHex(mac: Mac) {
    forall secret, content :: IsHex(mac(secret, content))
  }

  /** No two contents have the same code. */
  ghost predicate Injective(mac: Mac, secret: string) {
    forall x, y :: mac(secret, x) == mac(secret, y) ==> x == y
  }

  function Content(timestamp: int, body: string): string {
    Print(timestamp) + "." + body
  }

  function SignPayload(mac: Mac, secret: string, body: string, timestamp: int): string {
    "t=" + Print(timestamp) + ",v1=" + mac(secret, Content(timestamp, body))
  }

  /******* Reading a header *******/

  function IndexOf(s: string, c: char): (i: nat)
    ensures i <= |s| && c !in s[..i] && (i < |s| ==> s[i] == c)
  {
    if s == [] || s[0] == c then 0 else 1 + IndexOf(s[1..], c)
  }

  function Split(s: string, c: char): seq<string>
    decreases |s|
  {
    var i := IndexOf(s, c);
    if i == |s| then [s] else [s[..i]] + Split(s[i + 1..], c)
  }

  /** The fields of the items; a later field replaces an earlier one of the same name, an item without
      '=' is an error. */
  function Fields(items: seq<string>): Option<map<string, string>> {
    if items == [] then Some(map[])
    else
      match Fields(items[..|items| - 1])
      case None => None
      case Some(fields) =>
        var item := items[|items| - 1];
        var i := IndexOf(item, '=');
        if i == |item| then None else Some(fields[item[..i] := item[i + 1..]])
  }

  datatype Header = Header(timestamp: int, signature: string)

  function ReadHeader(header: string): Option<Header> {
    match Fields(Split(header, ','))
    case None => None
    case Some(fields) =>
      if "t" !in fields || "v1" !in fields || Read(fields["t"]).None? then None
      else Some(Header(Read(fields["t"]).value, fields["v1"]))
  }

  function Abs(n: int): nat {
    if n < 0 then -n else n
  }

  /** The comparison raises a TypeError on text that is not ASCII. */
  datatype Verdict = Answer(ok: bool) | RaisesTypeError

  predicate IsAscii(s: string) {
    forall c :: c in s ==> c < 128 as char
  }

  function VerifySignature(mac: Mac, secret: string, body: string, header: string, maxAge: int, now: int): Verdict {
    match ReadHeader(header)
    case None => Answer(false)
    case Some(h) =>
      if Abs(now - h.timestamp) > maxAge then Answer(false)
      else if !IsAscii(h.signature) then RaisesTypeError
      else Answer(mac(secret, Content(h.timestamp, body)) == h.signature)
  }

  /******* What splitting and reading fields mean *******/

  function Join(parts: seq<string>, c: char): string {
    if parts == [] then [] else if |parts| == 1 then parts[0] else parts[0] + [c] + Join(parts[1..], c)
  }

  /** Split cuts at every separator and loses nothing. */
  lemma {:induction false} SplitJoins(s: string, c: char)
    ensures Split(s, c) != [] && Join(Split(s, c), c) == s
    ensures forall k :: 0 <= k < |Split(s, c)| ==> c !in Split(s, c)[k]
    decreases |s|
  {
    var i := IndexOf(s, c);
    if i < |s| {
      SplitJoins(s[i + 1..], c);
      assert Split(s, c)[1..] == Split(s[i + 1..], c);
      assert s == s[..i] + [c] + s[i + 1..];
    } else {
      assert s[..i] == s;
    }
  }

  /** Item k gives the field its value, and no later item does. */
  ghost predicate GivenBy(items: seq<string>, k: nat, name: string, value: string) {
    && k < |items| && '=' !in name && items[k] == name + "=" + value
    && forall j :: k < j < |items| ==> items[j][..IndexOf(items[j], '=')] != name
  }

  /** A header is malformed exactly if an item has no '='; otherwise a field has the value of its last item. */
  lemma {:induction false} FieldsMeaning(items: seq<string>, name: string)
    ensures Fields(items).Some? <==> forall k :: 0 <= k < |items| ==> '=' in items[k]
    ensures Fields(items).Some? && name in Fields(items).value ==>
              exists k: nat :: GivenBy(items, k, name, Fields(items).value[name])
    ensures Fields(items).Some? && name !in Fields(items).value ==>
              forall k :: 0 <= k < |items| ==> items[k][..IndexOf(items[k], '=')] != name
  {
    if items != [] {
      var front, item := items[..|items| - 1], items[|items| - 1];
      var i := IndexOf(item, '=');
      FieldsMeaning(front, name);
      assert items == front + [item];
      assert '=' in item <==> i < |item| by {
        if i == |item| { assert item[..i] == item; }
      }
      if Fields(items).Some? && name in Fields(items).value {
        if item[..i] == name {
          assert item == name + "=" + item[i + 1..];
          assert GivenBy(items, |front|, name, item[i + 1..]);
        } else {
          var k: nat :| GivenBy(front, k, name, Fields(front).value[name]);
          assert GivenBy(items, k, name, Fields(front).value[name]);
        }
      }
    }
  }

  /** The last item of this name gives this value. */
  ghost predicate HasField(items: seq<string>, name: string, value: string) {
    exists k: nat :: LastOfName(items, k, name, value)
  }

  ghost predicate LastOfName(items: seq<string>, k: nat, name: string, value: string) {
    k < |items| && items[k] == name + "=" + value && forall j :: k < j < |items| ==> !(name + "=" <= items[j])
  }

  lemma NameIsBeforeEquals(item: string, name: string)
    requires '=' in item && '=' !in name
    ensures name + "=" <= item <==> item[..IndexOf(item, '=')] == name
    ensures name + "=" <= item ==> item == name + "=" + item[|name| + 1..]
  {
    var i := IndexOf(item, '=');
    assert item[..|item|] == item;
    assert item[..i + 1] == item[..i] + "=";
    if name + "=" <= item {
      assert item == name + ['='] + item[|name| + 1..];
      IndexOfJoined(name, '=', item[|name| + 1..]);
    }
  }

  /** In a header without malformed items, a field has the value of its last item. */
  lemma {:induction false} FieldIs(items: seq<string>, name: string, value: string)
    requires '=' !in name && forall k :: 0 <= k < |items| ==> '=' in items[k]
    ensures Fields(items).Some?
    ensures HasField(items, name, value) <==> name in Fields(items).value && Fields(items).value[name] == value
  {
    FieldsMeaning(items, name);
    if items != [] {
      var front, item := items[..|items| - 1], items[|items| - 1];
      FieldIs(front, name, value);
      NameIsBeforeEquals(item, name);
      assert items == front + [item];
      if name + "=" <= item {
        LastGives(front, item, name, value);
      } else {
        EarlierGives(front, item, name, value);
      }
    }
  }

  lemma LastGives(front: seq<string>, item: string, name: string, value: string)
    requires name + "=" <= item
    ensures HasField(front + [item], name, value) <==> item == name + "=" + value
  {
    var items := front + [item];
    if item == name + "=" + value { assert LastOfName(items, |front|, name, value); }
    if HasField(items, name, value) {
      var k: nat :| LastOfName(items, k, name, value);
      assert k == |front| by { assert items[|front|] == item; }
    }
  }

  lemma EarlierGives(front: seq<string>, item: string, name: string, value: string)
    requires !(name + "=" <= item)
    ensures HasField(front + [item], name, value) <==> HasField(front, name, value)
  {
    var items := front + [item];
    if HasField(front, name, value) {
      var k: nat :| LastOfName(front, k, name, value);
      assert LastOfName(items, k, name, value);
    }
    if HasField(items, name, value) {
      var k: nat :| LastOfName(items, k, name, value);
      assert name + "=" <= items[k];
      assert k < |front|;
      assert LastOfName(front, k, name, value) by {
        assert forall j :: k < j < |front| ==> front[j] == items[j];
      }
    }
  }

  /** The header has no malformed item, and its last items named t and v1 give this time and this code. */
  ghost predicate Says(header: string, timestamp: int, signature: string) {
    var items := Split(header, ',');
    && (forall k :: 0 <= k < |items| ==> '=' in items[k])
    && (exists number :: HasField(items, "t", number) && Read(number) == Some(timestamp))
    && HasField(items, "v1", signature)
  }

  lemma ReadHeaderMeans(header: string, timestamp: int, signature: string)
    ensures ReadHeader(header) == Some(Header(timestamp, signature)) <==> Says(header, timestamp, signature)
  {
    var items := Split(header, ',');
    FieldsMeaning(items, "t");
    if Fields(items).Some? {
      FieldIs(items, "v1", signature);
      forall number
        ensures HasField(items, "t", number) <==> "t" in Fields(items).value && Fields(items).value["t"] == number
      {
        FieldIs(items, "t", number);
      }
    }
  }

  predicate Below128(s: string) {
    forall k :: 0 <= k < |s| ==> s[k] as int < 128
  }

  lemma AsciiIsBelow128(s: string)
    ensures IsAscii(s) <==> Below128(s)
  {
    forall k | 0 <= k < |s| ensures s[k] in s {}
  }

  /** What is accepted, for every header: no item is malformed, the last t is a number within the
      window around now, and the last v1 is the code of that number, a dot and the body. With
      text in v1 that is not ASCII, a fresh header raises; every other header is refused. */
  lemma AcceptedIff(mac: Mac, secret: string, body: string, header: string, maxAge: int, now: int)
    ensures VerifySignature(mac, secret, body, header, maxAge, now) == Answer(true) <==>
            exists t, code :: && Says(header, t, code) && now - maxAge <= t <= now + maxAge && Below128(code)
                              && code == mac(secret, Print(t) + "." + body)
    ensures VerifySignature(mac, secret, body, header, maxAge, now) == RaisesTypeError <==>
            exists t, code :: Says(header, t, code) && now - maxAge <= t <= now + maxAge && !Below128(code)
    ensures (forall t, code :: !Says(header, t, code)) ==>
              VerifySignature(mac, secret, body, header, maxAge, now) == Answer(false)
  {
    forall t, code ensures Says(header, t, code) <==> ReadHeader(header) == Some(Header(t, code)) {
      ReadHeaderMeans(header, t, code);
    }
    if ReadHeader(header).Some? {
      var h := ReadHeader(header).value;
      assert Says(header, h.timestamp, h.signature);
      AsciiIsBelow128(h.signature);
    }
  }

  /** A header with a malformed item, without t or v1, or whose t is not a number, is refused. */
  lemma MalformedRefused(mac: Mac, secret: string, body: string, header: string, maxAge: int, now: int)
    requires var items := Split(header, ',');
             || (exists k :: 0 <= k < |items| && '=' !in items[k])
             || (forall value :: !HasField(items, "t", value)) || (forall value :: !HasField(items, "v1", value))
             || (exists value :: HasField(items, "t", value) && Read(value).None?)
    ensures VerifySignature(mac, secret, body, header, maxAge, now) == Answer(false)
  {
    var items := Split(header, ',');
    forall t, code ensures !Says(header, t, code) {
      if Says(header, t, code) {
        var number :| HasField(items, "t", number) && Read(number) == Some(t);
        forall value | HasField(items, "t", value) ensures value == number {
          FieldIs(items, "t", value);
          FieldIs(items, "t", number);
        }
      }
    }
    AcceptedIff(mac, secret, body, header, maxAge, now);
  }

  /******* Splitting what was joined *******/

  lemma {:induction false} IndexOfJoined(a: string, c: char, rest: string)
    requires c !in a
    ensures IndexOf(a + [c] + rest, c) == |a|
  {
    if a != [] {
      assert (a + [c] + rest)[1..] == a[1..] + [c] + rest;
      IndexOfJoined(a[1..], c, rest);
    }
  }

  lemma SplitJoined(a: string, c: char, rest: string)
    requires c !in a
    ensures Split(a + [c] + rest, c) == [a] + Split(rest, c)
  {
    var s := a + [c] + rest;
    IndexOfJoined(a, c, rest);
    assert s[..|a|] == a && s[|a| + 1..] == rest;
  }

  lemma SplitSingle(a: string, c: char)
    requires c !in a
    ensures Split(a, c) == [a]
  {
    assert IndexOf(a, c) == |a|;
  }

  function Field(name: string, value: string): string {
    name + "=" + value
  }

  lemma FieldsAdd(items: seq<string>, name: string, value: string)
    requires '=' !in name
    ensures Fields(items + [Field(name, value)]) ==
            match Fields(items) case None => None case Some(fields) => Some(fields[name := value])
  {
    var item := Field(name, value);
    IndexOfJoined(name, '=', value);
    assert (items + [item])[..|items|] == items;
    assert item[..|name|] == name && item[|name| + 1..] == value;
  }

  lemma TwoFields(value: string, value': string)
    ensures Fields([Field("t", value), Field("v1", value')]) == Some(map["t" := value, "v1" := value'])
  {
    assert [] + [Field("t", value)] == [Field("t", value)];
    FieldsAdd([], "t", value);
    FieldsAdd([Field("t", value)], "v1", value');
    assert [Field("t", value)] + [Field("v1", value')] == [Field("t", value), Field("v1", value')];
  }

  lemma SplitsTwoFields(value: string, value': string)
    requires ',' !in value && ',' !in value'
    ensures Split("t=" + value + ",v1=" + value', ',') == [Field("t", value), Field("v1", value')]
  {
    var first, second := Field("t", value), Field("v1", value');
    assert "t=" + value + ",v1=" + value' == first + [','] + second;
    SplitJoined(first, ',', second);
    SplitSingle(second, ',');
  }

  lemma ReadsTwoFields(timestamp: int, signature: string)
    requires ',' !in signature
    ensures ReadHeader("t=" + Print(timestamp) + ",v1=" + signature) == Some(Header(timestamp, signature))
  {
    ReadPrint(timestamp);
    SplitsTwoFields(Print(timestamp), signature);
    TwoFields(Print(timestamp), signature);
  }

  /******* Round trip *******/

  lemma HexIsPlain(s: string)
    requires IsHex(s)
    ensures ',' !in s && IsAscii(s)
  {}

  /** A signed header has two fields: the time, then the code of the time, a dot and the body. */
  lemma HeaderFields(mac: Mac, secret: string, body: string, timestamp: int)
    requires PrintsHex(mac)
    ensures Split(SignPayload(mac, secret, body, timestamp), ',') ==
            ["t=" + Print(timestamp), "v1=" + mac(secret, Print(timestamp) + "." + body)]
  {
    ReadPrint(timestamp);
    HexIsPlain(mac(secret, Content(timestamp, body)));
    SplitsTwoFields(Print(timestamp), mac(secret, Content(timestamp, body)));
    assert Field("t", Print(timestamp)) == "t=" + Print(timestamp);
    assert Field("v1", mac(secret, Content(timestamp, body))) == "v1=" + mac(secret, Content(timestamp, body));
  }

  /** A signed payload verifies exactly while it is fresh, for every secret, body, timestamp and window. */
  lemma RoundTrip(mac: Mac, secret: string, body: string, timestamp: int, maxAge: int, now: int)
    requires PrintsHex(mac)
    ensures VerifySignature(mac, secret, body, SignPayload(mac, secret, body, timestamp), maxAge, now) ==
            Answer(Abs(now - timestamp) <= maxAge)
  {
    var signature := mac(secret, Content(timestamp, body));
    HexIsPlain(signature);
    ReadsTwoFields(timestamp, signature);
  }

  /** The signed content determines the timestamp and the body. */
  lemma ContentUnambiguous(t: int, body: string, t': int, body': string)
    requires Content(t, body) == Content(t', body')
    ensures t == t' && body == body'
  {
    ReadPrint(t);
    ReadPrint(t');
    var c := Content(t, body);
    assert c == Print(t) + ['.'] + body && c == Print(t') + ['.'] + body';
    IndexOfJoined(Print(t), '.', body);
    IndexOfJoined(Print(t'), '.', body');
    assert c[..|Print(t)|] == Print(t) && c[..|Print(t')|] == Print(t');
    assert c[|Print(t)| + 1..] == body && c[|Print(t')| + 1..] == body';
    PrintInjective(t, t');
  }

  /** A header that carries the code of (t, body), whatever else it says, is accepted only
      for that body and only while t is fresh: neither can be replaced. */
  lemma AcceptedMeansSigned(mac: Mac, secret: string, header: string, maxAge: int, now: int,
                            body': string, t: int, body: string)
    requires Injective(mac, secret)
    requires ReadHeader(header).Some? && ReadHeader(header).value.signature == mac(secret, Content(t, body))
    requires VerifySignature(mac, secret, body', header, maxAge, now) == Answer(true)
    ensures body' == body && ReadHeader(header).value.timestamp == t && Abs(now - t) <= maxAge
  {
    ContentUnambiguous(ReadHeader(header).value.timestamp, body', t, body);
  }

  /** A signed header verifies a body exactly if it was signed for that body and is fresh. */
  lemma OnlyTheSignedBody(mac: Mac, secret: string, body: string, body': string, timestamp: int, maxAge: int, now: int)
    requires PrintsHex(mac) && Injective(mac, secret)
    ensures VerifySignature(mac, secret, body', SignPayload(mac, secret, body, timestamp), maxAge, now)
              == Answer(true) <==>
            body' == body && Abs(now - timestamp) <= maxAge
  {
    RoundTrip(mac, secret, body, timestamp, maxAge, now);
    var signature := mac(secret, Content(timestamp, body));
    HexIsPlain(signature);
    ReadsTwoFields(timestamp, signature);
    if VerifySignature(mac, secret, body', SignPayload(mac, secret, body, timestamp), maxAge, now) == Answer(true) {
      AcceptedMeansSigned(mac, secret, SignPayload(mac, secret, body, timestamp), maxAge, now, body', timestamp, body);
    }
  }

  /******* Last field wins *******/

  lemma {:induction false} SplitAppended(s: string, c: char, a: string)
    requires c !in a
    ensures Split(s + [c] + a, c) == Split(s, c) + [a]
    decreases |s|
  {
    var i := IndexOf(s, c);
    if i == |s| {
      assert s[..i] == s;
      SplitJoined(s, c, a);
      SplitSingle(a, c);
    } else {
      var rest := s[i + 1..];
      assert s == s[..i] + [c] + rest;
      assert s + [c] + a == s[..i] + [c] + (rest + [c] + a);
      SplitJoined(s[..i], c, rest + [c] + a);
      SplitAppended(rest, c, a);
    }
  }

  /** A second timestamp field replaces the first, so the code no longer matches and the header is refused. */
  lemma AppendedTimestampWins(mac: Mac, secret: string, body: string, timestamp: int, later: int, maxAge: int, now: int)
    requires PrintsHex(mac) && Injective(mac, secret)
    ensures var header := SignPayload(mac, secret, body, timestamp) + ",t=" + Print(later);
            && ReadHeader(header) == Some(Header(later, mac(secret, Content(timestamp, body))))
            && VerifySignature(mac, secret, body, header, maxAge, now) ==
              Answer(later == timestamp && Abs(now - timestamp) <= maxAge)
  {
    var signature := mac(secret, Content(timestamp, body));
    HexIsPlain(signature);
    ReadsAppendedTimestamp(timestamp, signature, later);
    if mac(secret, Content(later, body)) == signature { ContentUnambiguous(later, body, timestamp, body); }
  }

  lemma ReadsAppendedTimestamp(timestamp: int, signature: string, later: int)
    requires ',' !in signature
    ensures ReadHeader("t=" + Print(timestamp) + ",v1=" + signature + ",t=" + Print(later)) ==
            Some(Header(later, signature))
  {
    ReadPrint(timestamp);
    ReadPrint(later);
    SplitsTwoFields(Print(timestamp), signature);
    TwoFields(Print(timestamp), signature);
    AppendField("t=" + Print(timestamp) + ",v1=" + signature, Print(later));
  }

  lemma AppendField(header: string, value: string)
    requires ',' !in value
    ensures Fields(Split(header + ",t=" + value, ',')) ==
            match Fields(Split(header, ',')) case None => None case Some(fields) => Some(fields["t" := value])
  {
    assert header + ",t=" + value == header + [','] + Field("t", value);
    SplitAppended(header, ',', Field("t", value));
    FieldsAdd(Split(header, ','), "t", value);
  }
}
