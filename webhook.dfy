/**
 The JSON body that yak posts to the incoming webhook: the `IncomingWebhook`
 record, the order of its fields, and the shape `encoding/json` gives it when
 every field is tagged `omitempty` (an ordered list of key/value members that
 leaves out every field holding the empty string).

 `Unmarshal` reads such an object back the way a receiver does (a missing key
 reads as the empty string); it is the reader used to prove that `Marshal`
 loses nothing.
 */
module Webhook {

  /** The payload record; every field is a string tagged `omitempty`. */
  datatype IncomingWebhook = IncomingWebhook(
    channel: string,
    username: string,
    text: string,
    iconURL: string,
    iconEmoji: string)

  /** The fields of `IncomingWebhook`, one constructor each. */
  datatype Field = Channel | Username | Text | IconURL | IconEmoji

  /** The fields in declaration order, which is the order they are serialised in. */
  const Fields: seq<Field> := [Channel, Username, Text, IconURL, IconEmoji]

  /** Position of a field in declaration order. */
  function Rank(f: Field): (n: nat)
    ensures n < |Fields| && Fields[n] == f
  {
    match f
    case Channel => 0
    case Username => 1
    case Text => 2
    case IconURL => 3
    case IconEmoji => 4
  }

  /** Position of a JSON key among the field keys; `|Fields|` for any other key. */
  function KeyRank(key: string): (n: nat)
    ensures n <= |Fields|
  {
    if key == "channel" then 0
    else if key == "username" then 1
    else if key == "text" then 2
    else if key == "icon_url" then 3
    else if key == "icon_emoji" then 4
    else |Fields|
  }

  /** The JSON key of a field, from its struct tag; distinct fields have distinct keys. */
  function Key(f: Field): (key: string)
    ensures KeyRank(key) == Rank(f)
  {
    match f
    case Channel => "channel"
    case Username => "username"
    case Text => "text"
    case IconURL => "icon_url"
    case IconEmoji => "icon_emoji"
  }

  /** The value a payload holds in a field. */
  function Get(p: IncomingWebhook, f: Field): string {
    match f
    case Channel => p.channel
    case Username => p.username
    case Text => p.text
    case IconURL => p.iconURL
    case IconEmoji => p.iconEmoji
  }

  /** One `"key": "value"` member of a JSON object. */
  type Member = (string, string)

  /** The value a payload holds under a JSON key; the empty string for any other key. */
  function ValueAt(p: IncomingWebhook, key: string): string {
    if key == "channel" then p.channel
    else if key == "username" then p.username
    else if key == "text" then p.text
    else if key == "icon_url" then p.iconURL
    else if key == "icon_emoji" then p.iconEmoji
    else ""
  }

  /** The members written for the fields `fs`, in order, empty ones omitted. */
  function MembersOf(p: IncomingWebhook, fs: seq<Field>): seq<Member> {
    if |fs| == 0 then []
    else
      var v := Get(p, fs[0]);
      (if v == "" then [] else [(Key(fs[0]), v)]) + MembersOf(p, fs[1..])
  }

  /** The members written for `[f] + fs`: those of `f`, then those of `fs`. */
  lemma MembersOfCons(p: IncomingWebhook, f: Field, fs: seq<Field>)
    ensures MembersOf(p, [f] + fs)
         == (if Get(p, f) == "" then [] else [(Key(f), Get(p, f))]) + MembersOf(p, fs)
  {
    assert ([f] + fs)[1..] == fs;
  }

  /**
   `json.Marshal` of a payload, as the ordered members of the object it
   writes: `omitempty` leaves out every empty field, each member is a field's
   key with that field's value, and the members follow declaration order.
   */
  function Marshal(p: IncomingWebhook): (obj: seq<Member>)
    ensures forall i :: 0 <= i < |obj| ==> obj[i].1 != ""
    ensures AllFieldMembers(p, 0, obj) && RankOrdered(obj)
  {
    FieldsInOrder();
    MembersOfShape(p, Fields, 0);
    MembersOf(p, Fields)
  }

  /** The keys of an object, in order. */
  function KeysOf(obj: seq<Member>): seq<string> {
    seq(|obj|, i requires 0 <= i < |obj| => obj[i].0)
  }

  /**
   The keys that appear in the serialised payload: field keys only, in the
   order channel, username, text, icon_url, icon_emoji.
   */
  function PresentKeys(p: IncomingWebhook): (keys: seq<string>)
    ensures forall i :: 0 <= i < |keys| ==> KeyRank(keys[i]) < |Fields|
    ensures forall i, j :: 0 <= i < j < |keys| ==> KeyRank(keys[i]) < KeyRank(keys[j])
  {
    var m := Marshal(p);
    assert forall i :: 0 <= i < |m| ==> FieldMember(p, 0, m[i]);
    KeysOf(m)
  }

  /** The value of `key` in an object, or the empty string when it is absent. */
  function Lookup(obj: seq<Member>, key: string): string {
    if |obj| == 0 then ""
    else if obj[0].0 == key then obj[0].1
    else Lookup(obj[1..], key)
  }

  /** Reads an object back into a payload; absent keys give empty fields. */
  function Unmarshal(obj: seq<Member>): IncomingWebhook {
    IncomingWebhook(
      Lookup(obj, Key(Channel)),
      Lookup(obj, Key(Username)),
      Lookup(obj, Key(Text)),
      Lookup(obj, Key(IconURL)),
      Lookup(obj, Key(IconEmoji)))
  }

  /** Fields listed in strictly increasing declaration order. */
  predicate FieldsOrdered(fs: seq<Field>) {
    forall i, j :: 0 <= i < j < |fs| ==> Rank(fs[i]) < Rank(fs[j])
  }

  /** Every field in `fs` is at position `lo` or later. */
  predicate FieldsFrom(fs: seq<Field>, lo: nat) {
    forall i :: 0 <= i < |fs| ==> lo <= Rank(fs[i])
  }

  /** `m` is the member of a non-empty field at position `lo` or later, holding its value. */
  predicate FieldMember(p: IncomingWebhook, lo: nat, m: Member) {
    lo <= KeyRank(m.0) < |Fields| && m.1 != "" && m.1 == ValueAt(p, m.0)
  }

  /** Every member of `m` is a `FieldMember` of `p` at position `lo` or later. */
  predicate AllFieldMembers(p: IncomingWebhook, lo: nat, m: seq<Member>) {
    forall i :: 0 <= i < |m| ==> FieldMember(p, lo, m[i])
  }

  /** The members of `m` come in strictly increasing field order. */
  predicate RankOrdered(m: seq<Member>) {
    forall i, j :: 0 <= i < j < |m| ==> KeyRank(m[i].0) < KeyRank(m[j].0)
  }

  /** The declaration order is strictly increasing. */
  lemma FieldsInOrder()
    ensures FieldsOrdered(Fields) && FieldsFrom(Fields, 0)
  {
    forall i, j | 0 <= i < j < |Fields| ensures Rank(Fields[i]) < Rank(Fields[j]) {
      assert Rank(Fields[i]) == i && Rank(Fields[j]) == j;
    }
  }

  /** A field's key reads back that field's value. */
  lemma ValueAtKey(p: IncomingWebhook, f: Field)
    ensures ValueAt(p, Key(f)) == Get(p, f)
  {
  }

  /**
   Every member written for ordered fields from position `lo` on belongs to
   such a field, carries its non-empty value, and the members come in
   strictly increasing field order.
   */
  lemma {:induction false} MembersOfShape(p: IncomingWebhook, fs: seq<Field>, lo: nat)
    requires FieldsOrdered(fs) && FieldsFrom(fs, lo)
    ensures AllFieldMembers(p, lo, MembersOf(p, fs))
    ensures RankOrdered(MembersOf(p, fs))
  {
    if |fs| > 0 {
      var f := fs[0];
      var rest := fs[1..];
      assert FieldsOrdered(rest) && FieldsFrom(rest, Rank(f) + 1) by {
        forall i | 0 <= i < |rest| ensures Rank(f) < Rank(rest[i]) {
          assert rest[i] == fs[i + 1];
        }
      }
      MembersOfShape(p, rest, Rank(f) + 1);
      var v := Get(p, f);
      var tail := MembersOf(p, rest);
      if v == "" {
        assert MembersOf(p, fs) == [] + tail == tail;
        WeakenFrom(p, Rank(f) + 1, lo, tail);
      } else {
        var head := (Key(f), v);
        assert MembersOf(p, fs) == [head] + tail;
        ValueAtKey(p, f);
        PrependMember(p, lo, head, tail);
      }
    }
  }

  /** Members at position `lo` or later are also at any earlier position. */
  lemma WeakenFrom(p: IncomingWebhook, lo: nat, lo': nat, m: seq<Member>)
    requires lo' <= lo && AllFieldMembers(p, lo, m)
    ensures AllFieldMembers(p, lo', m)
  {
  }

  /** Putting a member before members of later positions keeps the shape. */
  lemma PrependMember(p: IncomingWebhook, lo: nat, head: Member, tail: seq<Member>)
    requires FieldMember(p, lo, head)
    requires AllFieldMembers(p, KeyRank(head.0) + 1, tail) && RankOrdered(tail)
    ensures AllFieldMembers(p, lo, [head] + tail)
    ensures RankOrdered([head] + tail)
  {
    var m := [head] + tail;
    forall i | 0 <= i < |m| ensures FieldMember(p, lo, m[i]) {
      if i > 0 {
        assert m[i] == tail[i - 1];
      }
    }
    forall i, j | 0 <= i < j < |m| ensures KeyRank(m[i].0) < KeyRank(m[j].0) {
      assert m[j] == tail[j - 1];
      assert FieldMember(p, KeyRank(head.0) + 1, tail[j - 1]);
      if i > 0 {
        assert m[i] == tail[i - 1];
      }
    }
  }

  /** Looking a field's key up in the members written for ordered fields finds its value. */
  lemma {:induction false} MembersOfLookup(p: IncomingWebhook, fs: seq<Field>, f: Field)
    requires FieldsOrdered(fs)
    ensures Lookup(MembersOf(p, fs), Key(f)) == if f in fs then Get(p, f) else ""
  {
    if |fs| > 0 {
      OrderedTail(fs);
      MembersOfLookup(p, fs[1..], f);
      MembersOfCons(p, fs[0], fs[1..]);
      assert [fs[0]] + fs[1..] == fs;
      LookupStep(p, fs[0], MembersOf(p, fs[1..]), f);
    }
  }

  /** The fields after the first of an ordered list are ordered and do not repeat it. */
  lemma OrderedTail(fs: seq<Field>)
    requires FieldsOrdered(fs) && |fs| > 0
    ensures FieldsOrdered(fs[1..])
    ensures fs[0] !in fs[1..]
    ensures forall f :: f in fs <==> f == fs[0] || f in fs[1..]
  {
    var rest := fs[1..];
    forall i, j | 0 <= i < j < |rest| ensures Rank(rest[i]) < Rank(rest[j]) {
      assert rest[i] == fs[i + 1] && rest[j] == fs[j + 1];
    }
    forall i | 0 <= i < |rest| ensures rest[i] != fs[0] {
      assert rest[i] == fs[i + 1];
    }
    assert fs == [fs[0]] + rest;
  }

  /** One step of the lookup: the member written for `g`, if any, then `tail`. */
  lemma LookupStep(p: IncomingWebhook, g: Field, tail: seq<Member>, f: Field)
    ensures var head: seq<Member> := if Get(p, g) == "" then [] else [(Key(g), Get(p, g))];
      Lookup(head + tail, Key(f)) == if g == f && Get(p, g) != "" then Get(p, g) else Lookup(tail, Key(f))
  {
    if Get(p, g) == "" {
      assert [] + tail == tail;
    } else {
      LookupCons((Key(g), Get(p, g)), tail, Key(f));
      if g != f {
        KeysDistinct(g, f);
      }
    }
  }

  /** Distinct fields have distinct keys. */
  lemma KeysDistinct(f: Field, g: Field)
    requires f != g
    ensures Key(f) != Key(g)
  {
    assert KeyRank(Key(f)) != KeyRank(Key(g));
  }

  /** Looking a key up in a non-empty object checks its first member, then the rest. */
  lemma LookupCons(head: Member, tail: seq<Member>, key: string)
    ensures Lookup([head] + tail, key) == if head.0 == key then head.1 else Lookup(tail, key)
  {
    assert ([head] + tail)[1..] == tail;
  }

  /** Marshalling loses nothing: reading the object back gives the same payload. */
  lemma MarshalRoundTrip(p: IncomingWebhook)
    ensures Unmarshal(Marshal(p)) == p
  {
    FieldsInOrder();
    MembersOfLookup(p, Fields, Channel);
    MembersOfLookup(p, Fields, Username);
    MembersOfLookup(p, Fields, Text);
    MembersOfLookup(p, Fields, IconURL);
    MembersOfLookup(p, Fields, IconEmoji);
  }

  /** A field's key appears in the serialised payload if and only if the field is non-empty. */
  lemma PresentKeysIff(p: IncomingWebhook, f: Field)
    ensures Key(f) in PresentKeys(p) <==> Get(p, f) != ""
  {
    var m := Marshal(p);
    FieldsInOrder();
    MembersOfShape(p, Fields, 0);
    MembersOfLookup(p, Fields, f);
    if Key(f) in PresentKeys(p) {
      var i :| 0 <= i < |m| && PresentKeys(p)[i] == Key(f);
      assert FieldMember(p, 0, m[i]);
      ValueAtKey(p, f);
    }
    if Get(p, f) != "" {
      LookupFound(m, Key(f));
    }
  }

  /** A non-empty lookup result comes from a key that is present. */
  lemma {:induction false} LookupFound(obj: seq<Member>, key: string)
    requires Lookup(obj, key) != ""
    ensures key in KeysOf(obj)
  {
    if obj[0].0 == key {
      assert KeysOf(obj)[0] == key;
    } else {
      LookupFound(obj[1..], key);
      var i :| 0 <= i < |obj| - 1 && KeysOf(obj[1..])[i] == key;
      assert KeysOf(obj)[i + 1] == key;
    }
  }
}
