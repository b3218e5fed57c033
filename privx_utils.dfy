/** Shared helpers of the collection: the argument spec every module accepts and the
    field-by-field dictionary diff. */
module PrivxUtils {
  import opened Py

  /** `{'type': t, 'required': True}` */
  function RequiredOption(t: string): Value {
    Dict(map["type" := Str(t), "required" := Bool(true)])
  }

  predicate IsRequiredOption(v: Value) {
    v.Dict? && "required" in v.fields && v.fields["required"] == Bool(true)
  }

  /** The seven connection settings every module takes under `config`, all required. */
  function CommonConfigSpec(): (spec: Record)
    ensures spec.Keys == {"hostname", "hostport", "ca_cert", "oauth_client_id",
                          "oauth_client_secret", "api_client_id", "api_client_secret"}
    ensures forall k :: k in spec ==> IsRequiredOption(spec[k])
    ensures spec["hostport"] == RequiredOption("int")
    ensures forall k :: k in spec && k != "hostport" ==> spec[k] == RequiredOption("str")
  {
    map[
      "hostname" := RequiredOption("str"),
      "hostport" := RequiredOption("int"),
      "ca_cert" := RequiredOption("str"),
      "oauth_client_id" := RequiredOption("str"),
      "oauth_client_secret" := RequiredOption("str"),
      "api_client_id" := RequiredOption("str"),
      "api_client_secret" := RequiredOption("str")
    ]
  }

  /** `{'type': 'dict', 'required': True, 'options': <common config spec>}` */
  function ConfigEntry(): Value {
    Dict(map["type" := Str("dict"), "required" := Bool(true), "options" := Dict(CommonConfigSpec())])
  }

  /** `define_argument_spec`: a `config` entry, then `update` with the module's own spec,
      whose entries win on a clash. */
  function DefineArgumentSpec(moduleSpec: Record): (spec: Record)
    ensures spec.Keys == moduleSpec.Keys + {"config"}
    ensures forall k :: k in moduleSpec ==> spec[k] == moduleSpec[k]
    ensures "config" !in moduleSpec ==> spec["config"] == ConfigEntry()
  {
    map["config" := ConfigEntry()] + moduleSpec
  }

  /** When the module spec does not supply `config`, the `config` entry is a required dict
      whose options are exactly the seven required common settings. */
  lemma ConfigEntryOptions(moduleSpec: Record)
    requires "config" !in moduleSpec
    ensures var c := DefineArgumentSpec(moduleSpec)["config"];
      && c.Dict? && IsRequiredOption(c)
      && "options" in c.fields && c.fields["options"].Dict?
      && c.fields["options"].fields.Keys == CommonConfigSpec().Keys
      && forall k :: k in c.fields["options"].fields ==> IsRequiredOption(c.fields["options"].fields[k])
  {
  }

  /** One entry of a diff: `{'old': ..., 'new': ...}`, with None for a missing side. */
  datatype Change = Change(oldValue: Value, newValue: Value)

  /** Reference definition of `diff_dicts`: every key of either map whose value differs or
      is missing on one side, with both sides' values (None when missing). */
  function Diff(dict1: Record, dict2: Record): map<string, Change> {
    map k | k in dict1.Keys + dict2.Keys && (k !in dict1 || k !in dict2 || dict1[k] != dict2[k])
      :: Change(Get(dict1, k, Null), Get(dict2, k, Null))
  }

  /** `diff_dicts`: three passes filling `diff` in place, as the source does. */
  method DiffDicts(dict1: Record, dict2: Record) returns (diff: map<string, Change>)
    ensures diff == Diff(dict1, dict2)
  {
    diff := map[];
    // keys present in dict1 but not in dict2
    var keys := dict1.Keys;
    while keys != {}
      invariant keys <= dict1.Keys
      invariant forall k :: k in diff <==> k in dict1 && k !in keys && k !in dict2
      invariant forall k :: k in diff ==> diff[k] == Diff(dict1, dict2)[k]
      decreases keys
    {
      var key :| key in keys;
      if key !in dict2 {
        diff := diff[key := Change(dict1[key], Null)];
      }
      keys := keys - {key};
    }
    // keys present in dict2 but not in dict1
    keys := dict2.Keys;
    while keys != {}
      invariant keys <= dict2.Keys
      invariant forall k :: k in diff <==> (k in dict1 && k !in dict2) || (k in dict2 && k !in keys && k !in dict1)
      invariant forall k :: k in diff ==> diff[k] == Diff(dict1, dict2)[k]
      decreases keys
    {
      var key :| key in keys;
      if key !in dict1 {
        diff := diff[key := Change(Null, dict2[key])];
      }
      keys := keys - {key};
    }
    // keys present in both
    keys := dict1.Keys * dict2.Keys;
    while keys != {}
      invariant keys <= dict1.Keys * dict2.Keys
      invariant forall k :: k in diff <==> (k in dict1 && k !in dict2) || (k in dict2 && k !in dict1)
                                           || (k in dict1 && k in dict2 && k !in keys && dict1[k] != dict2[k])
      invariant forall k :: k in diff ==> diff[k] == Diff(dict1, dict2)[k]
      decreases keys
    {
      var key :| key in keys;
      if dict1[key] != dict2[key] {
        diff := diff[key := Change(dict1[key], dict2[key])];
      }
      keys := keys - {key};
    }
    assert diff.Keys == Diff(dict1, dict2).Keys;
  }

  /** A key is in the diff iff it is on exactly one side, or on both with unequal values. */
  lemma DiffKeys(dict1: Record, dict2: Record, k: string)
    ensures k in Diff(dict1, dict2) <==>
      (k in dict1 && k !in dict2) || (k !in dict1 && k in dict2)
      || (k in dict1 && k in dict2 && dict1[k] != dict2[k])
  {
  }

  /** The entry for each kind of key, and nothing outside the union of the keys. */
  lemma DiffEntries(dict1: Record, dict2: Record)
    ensures Diff(dict1, dict2).Keys <= dict1.Keys + dict2.Keys
    ensures forall k :: k in dict1 && k !in dict2 ==> Diff(dict1, dict2)[k] == Change(dict1[k], Null)
    ensures forall k :: k !in dict1 && k in dict2 ==> Diff(dict1, dict2)[k] == Change(Null, dict2[k])
    ensures forall k :: k in dict1 && k in dict2 && dict1[k] != dict2[k] ==>
      Diff(dict1, dict2)[k] == Change(dict1[k], dict2[k])
  {
  }

  /** A map has no differences with itself. */
  lemma DiffSelfIsEmpty(d: Record)
    ensures Diff(d, d) == map[]
  {
    assert Diff(d, d).Keys == {};
  }

  /** Swapping the arguments swaps `old` and `new` in every entry. */
  lemma DiffSwap(dict1: Record, dict2: Record)
    ensures Diff(dict2, dict1).Keys == Diff(dict1, dict2).Keys
    ensures forall k :: k in Diff(dict1, dict2) ==>
      Diff(dict1, dict2)[k].oldValue == Diff(dict2, dict1)[k].newValue
      && Diff(dict1, dict2)[k].newValue == Diff(dict2, dict1)[k].oldValue
  {
  }

  /** Applying a diff to its first argument: a `new` of None removes the key, any other
      `new` sets it. */
  function Patch(d: Record, diff: map<string, Change>): Record {
    map k | k in d.Keys + diff.Keys && (k in diff ==> diff[k].newValue != Null)
      :: if k in diff then diff[k].newValue else d[k]
  }

  /** The diff carries enough to rebuild the second map from the first, as long as the
      second holds no None value (a None value and a missing key read the same). */
  lemma PatchDiff(dict1: Record, dict2: Record)
    requires forall k :: k in dict2 ==> dict2[k] != Null
    ensures Patch(dict1, Diff(dict1, dict2)) == dict2
  {
    var p := Patch(dict1, Diff(dict1, dict2));
    assert p.Keys == dict2.Keys;
    forall k | k in dict2
      ensures p[k] == dict2[k]
    {
    }
  }
}
