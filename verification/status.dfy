/**
 * The status document `getStatus` returns: the read-back levels of the four
 * relays as D0..D3, the power flag and the mode label. Each boolean is
 * rendered by `addBool` as the literal string "true" or "false". The document
 * is a list of (key, value) pairs in the order the keys were first set;
 * setting a key it already has replaces that field's value.
 */
module Status {
  import opened Wrappers
  import opened LoopModes

  type Doc = seq<(string, string)>

  /** `addBool`'s rendering of a boolean. */
  function BoolText(value: bool): (r: string)
    ensures r == "true" || r == "false"
    ensures r == "true" <==> value
  {
    if value then "true" else "false"
  }

  /** The value stored under `key`, if any. */
  function Lookup(doc: Doc, key: string): Option<string>
  {
    if doc == [] then None
    else if doc[0].0 == key then Some(doc[0].1)
    else Lookup(doc[1..], key)
  }

  /** The keys of the status document, in order. */
  const StatusKeys: seq<string> := ["D0", "D1", "D2", "D3", "power", "mode"]

  /** A lookup finds the first field that carries the key. */
  lemma {:induction false} LookupFindsFirst(doc: Doc, key: string, i: nat)
    requires i < |doc| && doc[i].0 == key
    requires forall j :: 0 <= j < i ==> doc[j].0 != key
    ensures Lookup(doc, key) == Some(doc[i].1)
  {
    if i > 0 {
      LookupFindsFirst(doc[1..], key, i - 1);
    }
  }

  /** The position of the first field with key `name`, or `|doc|` if there is none. */
  function KeyIndex(doc: Doc, name: string): (i: nat)
    ensures i <= |doc|
    ensures i < |doc| ==> doc[i].0 == name
    ensures forall j :: 0 <= j < i ==> doc[j].0 != name
    decreases |doc|
  {
    if doc == [] || doc[0].0 == name then 0 else 1 + KeyIndex(doc[1..], name)
  }

  /**
   * `doc[name].set(value)`: replaces the value of the first field `name` where
   * the document has one, in place, and otherwise adds the field at the end.
   */
  function SetField(doc: Doc, name: string, value: string): (r: Doc)
    ensures Lookup(r, name) == Some(value)
    ensures forall key :: key != name ==> Lookup(r, key) == Lookup(doc, key)
    ensures KeyIndex(doc, name) == |doc| ==> r == doc + [(name, value)]
    ensures KeyIndex(doc, name) < |doc| ==> r == doc[KeyIndex(doc, name) := (name, value)]
    decreases |doc|
  {
    if doc == [] then [(name, value)]
    else if doc[0].0 == name then [(name, value)] + doc[1..]
    else
      var r := [doc[0]] + SetField(doc[1..], name, value);
      assert r[1..] == SetField(doc[1..], name, value);
      r
  }

  /** Setting a key that no field carries appends exactly one field. */
  lemma SetFreshField(doc: Doc, name: string, value: string)
    requires forall i :: 0 <= i < |doc| ==> doc[i].0 != name
    ensures SetField(doc, name, value) == doc + [(name, value)]
  {
    assert KeyIndex(doc, name) == |doc|;
  }

  /** `addBool`: sets the field `name` to the rendered boolean. */
  function AddBool(doc: Doc, name: string, value: bool): (r: Doc)
    ensures Lookup(r, name) == Some(BoolText(value))
    ensures forall key :: key != name ==> Lookup(r, key) == Lookup(doc, key)
    ensures KeyIndex(doc, name) == |doc| ==> r == doc + [(name, BoolText(value))]
    ensures KeyIndex(doc, name) < |doc| ==> r == doc[KeyIndex(doc, name) := (name, BoolText(value))]
  {
    SetField(doc, name, BoolText(value))
  }

  /** `addString`: sets the field `name` to the string itself. */
  function AddString(doc: Doc, name: string, value: string): (r: Doc)
    ensures Lookup(r, name) == Some(value)
    ensures forall key :: key != name ==> Lookup(r, key) == Lookup(doc, key)
    ensures KeyIndex(doc, name) == |doc| ==> r == doc + [(name, value)]
    ensures KeyIndex(doc, name) < |doc| ==> r == doc[KeyIndex(doc, name) := (name, value)]
  {
    SetField(doc, name, value)
  }

  /** The status snapshot of a state. */
  function StatusOf(s: State): (r: Doc)
    ensures |r| == |StatusKeys|
    ensures forall i :: 0 <= i < |r| ==> r[i].0 == StatusKeys[i]
    ensures forall i :: 0 <= i < RelayCount ==> (r[i].1 == "true" <==> s.relays[i] == High)
    ensures forall i :: 0 <= i < RelayCount ==> r[i].1 in {"true", "false"}
    ensures r[4].1 in {"true", "false"} && (r[4].1 == "true" <==> s.power)
    ensures r[5].1 == s.activeMode
  {
    [("D0", BoolText(s.relays[0] == High)), ("D1", BoolText(s.relays[1] == High)),
     ("D2", BoolText(s.relays[2] == High)), ("D3", BoolText(s.relays[3] == High)),
     ("power", BoolText(s.power)), ("mode", s.activeMode)]
  }

  /** Each key appears once in the snapshot, so a lookup finds the field that was added. */
  lemma StatusLookup(s: State)
    ensures Lookup(StatusOf(s), "D0") == Some(BoolText(s.relays[0] == High))
    ensures Lookup(StatusOf(s), "D1") == Some(BoolText(s.relays[1] == High))
    ensures Lookup(StatusOf(s), "D2") == Some(BoolText(s.relays[2] == High))
    ensures Lookup(StatusOf(s), "D3") == Some(BoolText(s.relays[3] == High))
    ensures Lookup(StatusOf(s), "power") == Some(BoolText(s.power))
    ensures Lookup(StatusOf(s), "mode") == Some(s.activeMode)
  {
    var doc := StatusOf(s);
    forall i | 0 <= i < |doc|
      ensures Lookup(doc, StatusKeys[i]) == Some(doc[i].1)
    {
      LookupFindsFirst(doc, StatusKeys[i], i);
    }
    assert doc[0].0 == "D0" && doc[1].0 == "D1" && doc[2].0 == "D2" && doc[3].0 == "D3";
    assert doc[4].0 == "power" && doc[5].0 == "mode";
  }

  /** The snapshot loses nothing: two states with the same snapshot are the same state. */
  lemma StatusDeterminesState(s: State, t: State)
    requires StatusOf(s) == StatusOf(t)
    ensures s == t
  {
  }

  /** While Relay4 mirrors `power`, the D3 field and the power field agree. */
  lemma StatusPowerAgrees(s: State)
    requires PowerConsistent(s)
    ensures StatusOf(s)[3].1 == StatusOf(s)[4].1
  {
  }

  /** No key of the status document repeats. */
  lemma StatusKeysDistinct()
    ensures forall i, j :: 0 <= i < j < |StatusKeys| ==> StatusKeys[i] != StatusKeys[j]
  {
  }

  /** Setting the `k`-th status key on the first `k` fields of the snapshot appends field `k`. */
  lemma StatusStep(s: State, k: nat)
    requires k < |StatusKeys|
    ensures SetField(StatusOf(s)[..k], StatusKeys[k], StatusOf(s)[k].1) == StatusOf(s)[..k + 1]
  {
    var doc := StatusOf(s);
    StatusKeysDistinct();
    assert doc[..k + 1] == doc[..k] + [(StatusKeys[k], doc[k].1)];
    SetFreshField(doc[..k], StatusKeys[k], doc[k].1);
  }

  /**
   * Building the document as `getStatus` does, one `addBool`/`addString` per
   * key on an empty document, yields the snapshot: every key is new when it is
   * set, so each call appends one field in order.
   */
  lemma StatusFieldByField(s: State)
    ensures AddString(AddBool(AddBool(AddBool(AddBool(AddBool([],
              "D0", s.relays[0] == High), "D1", s.relays[1] == High), "D2", s.relays[2] == High),
              "D3", s.relays[3] == High), "power", s.power), "mode", s.activeMode)
            == StatusOf(s)
  {
    var doc := StatusOf(s);
    var d1 := AddBool([], "D0", s.relays[0] == High);
    assert d1 == doc[..1] by { assert doc[..0] == []; StatusStep(s, 0); }
    var d2 := AddBool(d1, "D1", s.relays[1] == High);
    assert d2 == doc[..2] by { StatusStep(s, 1); }
    var d3 := AddBool(d2, "D2", s.relays[2] == High);
    assert d3 == doc[..3] by { StatusStep(s, 2); }
    var d4 := AddBool(d3, "D3", s.relays[3] == High);
    assert d4 == doc[..4] by { StatusStep(s, 3); }
    var d5 := AddBool(d4, "power", s.power);
    assert d5 == doc[..5] by { StatusStep(s, 4); }
    StatusStep(s, 5);
    assert doc[..6] == doc;
  }
}
