/**
 The JSON patches (section 4 of RFC 6902) by which the controller sets and removes one entry of the ConfigMap of
 compiled policies. The serialised ConfigMap has no `data` member while it holds no entries.
 */
module ConfigMapPatch {
  import opened Wrappers

  type Data = map<string, string>

  datatype Op =
    | AddData(data: Data)
    | RemoveData
    | Add(key: string, value: string)
    | Replace(key: string, value: string)
    | Remove(key: string)

  /** The difference between two ConfigMaps that differ in the entry `name` at most. */
  function Diff(before: Data, after: Data, name: string): Option<Op> {
    if before == after then None
    else if before == map[] then Some(AddData(after))
    else if after == map[] then Some(RemoveData)
    else if name !in after then Some(Remove(name))
    else if name in before then Some(Replace(name, after[name]))
    else Some(Add(name, after[name]))
  }

  function CreatePatch(seen: Data, name: string, entry: string): Option<Op> { Diff(seen, seen[name := entry], name) }

  function CreateRemovePatch(seen: Data, name: string): Option<Op> { Diff(seen, seen - {name}, name) }

  /** The server: an operation on a missing member fails, and then nothing is changed. */
  function Apply(stored: Data, op: Op): Option<Data> {
    match op
    case AddData(data) => Some(data)
    case RemoveData => if stored == map[] then None else Some(map[])
    case Add(key, value) => if stored == map[] then None else Some(stored[key := value])
    case Replace(key, value) => if key in stored then Some(stored[key := value]) else None
    case Remove(key) => if key in stored then Some(stored - {key}) else None
  }

  /** Read and patch as one step: the entry is set, the others stay, and no patch is sent for no difference. */
  lemma PatchSetsEntry(data: Data, name: string, entry: string)
    ensures CreatePatch(data, name, entry).None? <==> name in data && data[name] == entry
    ensures CreatePatch(data, name, entry).Some? ==>
      Apply(data, CreatePatch(data, name, entry).value) == Some(data[name := entry])
  {
  }

  lemma PatchRemovesEntry(data: Data, name: string)
    ensures CreateRemovePatch(data, name).None? <==> name !in data
    ensures CreateRemovePatch(data, name).Some? ==>
      Apply(data, CreateRemovePatch(data, name).value) == Some(data - {name})
  {
  }

  /**
   A patch computed from an outdated copy that the server still carries out keeps the entries of the other policies if
   and only if the copy had entries, or there is nothing of others to lose.
   */
  lemma StaleSetKeepsOthersIff(seen: Data, stored: Data, name: string, entry: string)
    requires CreatePatch(seen, name, entry).Some?
    requires Apply(stored, CreatePatch(seen, name, entry).value).Some?
    ensures var result := Apply(stored, CreatePatch(seen, name, entry).value).value;
      && name in result && result[name] == entry
      && (result - {name} == stored - {name} <==> seen != map[] || stored.Keys <= {name})
  {
    var result := Apply(stored, CreatePatch(seen, name, entry).value).value;
    if seen == map[] {
      assert result == map[name := entry];
      assert result - {name} == map[];
      if stored.Keys <= {name} {
        assert stored - {name} == map[];
      } else {
        var other :| other in stored.Keys && other != name;
        assert other in stored - {name};
      }
    } else {
      assert result == stored[name := entry];
      assert result - {name} == stored - {name};
    }
  }

  lemma StaleRemoveKeepsOthersIff(seen: Data, stored: Data, name: string)
    requires CreateRemovePatch(seen, name).Some?
    requires Apply(stored, CreateRemovePatch(seen, name).value).Some?
    ensures var result := Apply(stored, CreateRemovePatch(seen, name).value).value;
      && name !in result
      && (result == stored - {name} <==> !(seen.Keys <= {name}) || stored.Keys <= {name})
  {
    var result := Apply(stored, CreateRemovePatch(seen, name).value).value;
    if seen.Keys <= {name} {
      assert seen - {name} == map[];
      if stored.Keys <= {name} {
        assert stored - {name} == map[];
      } else {
        var other :| other in stored.Keys && other != name;
        assert other in stored - {name};
      }
    } else {
      var other :| other in seen.Keys && other != name;
      assert other in seen - {name};
    }
  }
}
