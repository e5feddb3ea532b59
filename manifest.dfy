/**
 * The skill manifest's required fields, the warnings the tool prints for the
 * ones that are missing, and the `find` by name over the registered skills.
 */
module ManifestFields {
  import opened Wrappers
  import opened JsonValues

  /** The required manifest fields, in the order the tool checks them. */
  datatype Field = Name | Id | Endpoint | AuthenticationConnections | Actions

  const RequiredFields: seq<Field> := [Name, Id, Endpoint, AuthenticationConnections, Actions]

  function Key(f: Field): string
  {
    match f
    case Name => "name"
    case Id => "id"
    case Endpoint => "endpoint"
    case AuthenticationConnections => "authenticationConnections"
    case Actions => "actions"
  }

  /** Position of a field in `RequiredFields`. */
  function Rank(f: Field): nat
  {
    match f
    case Name => 0
    case Id => 1
    case Endpoint => 2
    case AuthenticationConnections => 3
    case Actions => 4
  }

  /** Fields listed in strictly increasing check order (so without repeats). */
  predicate InCheckOrder(fs: seq<Field>)
  {
    forall i, j :: 0 <= i < j < |fs| ==> Rank(fs[i]) < Rank(fs[j])
  }

  /** The tool's presence test for one field of a (non-null) manifest: the
      field is falsy, or, for `actions`, it is falsy or its element 0 is. An
      empty `authenticationConnections` array is truthy and so present. */
  predicate Missing(m: Json, f: Field)
  {
    var v := Property(m, Key(f));
    !Truthy(v) || (f == Actions && !Truthy(Element0(v.value)))
  }

  /** The fields of `fs` that `m` lacks, in the order of `fs`. */
  function MissingAmong(m: Json, fs: seq<Field>): (r: seq<Field>)
    requires InCheckOrder(fs)
    ensures forall f :: f in r <==> f in fs && Missing(m, f)
    ensures InCheckOrder(r)
  {
    if fs == [] then []
    else
      var tail := fs[1..];
      assert InCheckOrder(tail);
      var rest := MissingAmong(m, tail);
      var head := if Missing(m, fs[0]) then [fs[0]] else [];
      assert forall f :: f in fs <==> f == fs[0] || f in tail;
      forall j | 0 <= j < |rest| ensures Rank(fs[0]) < Rank(rest[j]) {
        assert rest[j] in tail;
        var k :| 0 <= k < |tail| && tail[k] == rest[j];
        assert tail[k] == fs[k + 1];
      }
      head + rest
  }

  /** The warnings printed for a manifest: one per missing required field,
      each at most once, in check order. */
  function Warnings(m: Json): (r: seq<Field>)
    ensures forall f :: f in r <==> Missing(m, f)
    ensures InCheckOrder(r) && |r| <= |RequiredFields|
  {
    assert forall f :: f in RequiredFields by {
      forall f ensures f in RequiredFields {
        assert RequiredFields[Rank(f)] == f;
      }
    }
    var r := MissingAmong(m, RequiredFields);
    WarningsAtMostFive(r);
    r
  }

  /** A list in strict check order has at most one entry per field. */
  lemma {:induction false} WarningsAtMostFive(r: seq<Field>)
    requires InCheckOrder(r)
    ensures |r| <= |RequiredFields|
  {
    if |r| > 0 {
      InCheckOrderBound(r);
    }
  }

  /** The last of a strictly ordered list of ranks is at least its length minus one. */
  lemma {:induction false} InCheckOrderBound(r: seq<Field>)
    requires InCheckOrder(r) && |r| > 0
    ensures Rank(r[|r| - 1]) >= |r| - 1
  {
    if |r| > 1 {
      InCheckOrderBound(r[..|r| - 1]);
    }
  }

  /** The `name` a registered entry or a manifest carries, `undefined` if none. */
  function NameOf(v: Json): Option<Json>
  {
    Property(v, "name")
  }

  /** Outcome of `entries.find(e => e.name === name)`: no entry matched, the
      first match at `index`, or a `null` entry reached first (reading its
      `name` throws). */
  datatype FindResult = NoMatch | Match(index: nat) | NullEntry(index: nat)

  /** `find` over the registered entries, scanning from the front. */
  function FindByName(entries: seq<Json>, name: Option<Json>): (r: FindResult)
    ensures r.Match? ==> r.index < |entries| && entries[r.index] != JNull
                         && StrictEquals(NameOf(entries[r.index]), name)
    ensures r.NullEntry? ==> r.index < |entries| && entries[r.index] == JNull
    ensures forall j :: 0 <= j < |entries| && (r.NoMatch? || j < r.index) ==>
              entries[j] != JNull && !StrictEquals(NameOf(entries[j]), name)
  {
    if |entries| == 0 then NoMatch
    else if entries[0] == JNull then NullEntry(0)
    else if StrictEquals(NameOf(entries[0]), name) then Match(0)
    else
      match FindByName(entries[1..], name)
      case NoMatch => NoMatch
      case Match(i) => Match(i + 1)
      case NullEntry(i) => NullEntry(i + 1)
  }
}
