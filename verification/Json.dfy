/** JSON values as `json.loads` yields them: an object keeps its members in order. */
module Json {
  import opened Wrappers

  datatype Member = Member(key: string, value: Json)

  datatype Json =
    | JNull
    | JBool(b: bool)
    | JNumber(n: int)
    | JString(s: string)
    | JArray(items: seq<Json>)
    | JObject(members: seq<Member>)

  predicate UniqueKeys(members: seq<Member>) {
    forall i, j :: 0 <= i < j < |members| ==> members[i].key != members[j].key
  }

  /** `value.get(key)` on a dictionary. */
  function Lookup(members: seq<Member>, key: string): Option<Json> {
    if members == [] then None
    else if members[0].key == key then Some(members[0].value)
    else Lookup(members[1..], key)
  }

  /** A key's value is the one at its first position. */
  lemma {:induction false} LookupAt(members: seq<Member>, i: nat)
    requires i < |members|
    requires forall j :: 0 <= j < i ==> members[j].key != members[i].key
    ensures Lookup(members, members[i].key) == Some(members[i].value)
  {
    if i > 0 { LookupAt(members[1..], i - 1); }
  }

  /** `value[key] = item`: replace in place, or append a new member. */
  function Assign(members: seq<Member>, key: string, value: Json): (r: seq<Member>)
    ensures Lookup(r, key) == Some(value)
    ensures forall other :: other != key ==> Lookup(r, other) == Lookup(members, other)
  {
    if members == [] then [Member(key, value)]
    else if members[0].key == key then [Member(key, value)] + members[1..]
    else [members[0]] + Assign(members[1..], key, value)
  }

  /** The string at `key`, when there is one. */
  function StringAt(members: seq<Member>, key: string): Option<string> {
    match Lookup(members, key)
    case Some(JString(s)) => Some(s)
    case _ => None
  }

  function Strings(xs: seq<string>): Json {
    JArray(seq(|xs|, i requires 0 <= i < |xs| => JString(xs[i])))
  }

  /** Reads back a list of strings; anything else in the list is a malformed record. */
  function StringList(value: Json): Option<seq<string>> {
    if value.JArray? && (forall i :: 0 <= i < |value.items| ==> value.items[i].JString?) then
      Some(seq(|value.items|, i requires 0 <= i < |value.items| => value.items[i].s))
    else
      None
  }

  lemma StringsRoundTrip(xs: seq<string>)
    ensures StringList(Strings(xs)) == Some(xs)
  {
    var back := StringList(Strings(xs));
    assert back.value == xs;
  }
}
