/**
 * IResourceManager (Interfaces/IResourceManager.h): the engine's registry
 * of disposable resources, a vector of owned resources each carrying a
 * name.  Lookups take the first entry with the requested name; names need
 * not be unique.  The Dispose calls the registry makes are recorded, in
 * order, in `disposed`.
 */
module ResourceRegistry {
  import opened Wrappers
  import opened UtilsCommon

  /** One registered resource and the Name written into it. */
  datatype Entry<R> = Entry(name: string, resource: R)

  /** The position of the first entry named `name`, as std::find_if finds it. */
  function FirstIndexOf<R>(entries: seq<Entry<R>>, name: string): (index: Option<nat>)
    ensures index.None? <==> forall i :: 0 <= i < |entries| ==> entries[i].name != name
    ensures index.Some? ==> index.value < |entries| && entries[index.value].name == name
                            && forall j :: 0 <= j < index.value ==> entries[j].name != name
  {
    if |entries| == 0 then None
    else if entries[0].name == name then Some(0)
    else match FirstIndexOf(entries[1..], name)
      case None => None
      case Some(i) => Some(i + 1)
  }

  /**
   * Appending an entry does not change which entry a name finds when the
   * name was already present: later duplicates are shadowed.  A name that
   * was absent finds the new entry.
   */
  lemma {:induction false} FirstIndexAfterAppend<R>(entries: seq<Entry<R>>, entry: Entry<R>, name: string)
    ensures FirstIndexOf(entries + [entry], name)
            == if FirstIndexOf(entries, name).Some? then FirstIndexOf(entries, name)
               else if entry.name == name then Some(|entries|)
               else None
  {
    var appended := entries + [entry];
    assert forall i :: 0 <= i < |entries| ==> appended[i] == entries[i];
    if FirstIndexOf(entries, name).None? && entry.name == name {
      assert appended[|entries|].name == name;
    }
  }

  /** The entries once the entry at `index` is erased, the rest in their order. */
  function Erase<R>(entries: seq<Entry<R>>, index: nat): (rest: seq<Entry<R>>)
    requires index < |entries|
    ensures |rest| == |entries| - 1
    ensures forall i :: 0 <= i < index ==> rest[i] == entries[i]
    ensures forall i :: index <= i < |rest| ==> rest[i] == entries[i + 1]
  {
    entries[..index] + entries[index + 1..]
  }

  /** The resources of the entries, in order. */
  function Resources<R>(entries: seq<Entry<R>>): (resources: seq<R>)
    ensures |resources| == |entries|
    ensures forall i :: 0 <= i < |entries| ==> resources[i] == entries[i].resource
  {
    if |entries| == 0 then [] else [entries[0].resource] + Resources(entries[1..])
  }

  /** What GetResource<T>(name) yields as written. */
  datatype Lookup<R> =
    | NullResource           // nullptr: the registry is empty
    | Found(resource: R)     // the first entry with the name
    | PastTheEnd             // find_if returned end(), which is then dereferenced

  /**
   * GetResource as written: an empty registry gives nullptr, otherwise the
   * result of find_if is dereferenced whether or not it found anything.
   */
  function GetResourceAsWritten<R>(entries: seq<Entry<R>>, name: string): (lookup: Lookup<R>)
    ensures lookup.NullResource? <==> |entries| == 0
    ensures lookup.PastTheEnd? <==> |entries| > 0 && FirstIndexOf(entries, name).None?
    ensures lookup.Found? ==> lookup.resource == entries[FirstIndexOf(entries, name).value].resource
  {
    if |entries| == 0 then NullResource
    else match FirstIndexOf(entries, name)
      case None => PastTheEnd
      case Some(i) => Found(entries[i].resource)
  }

  /**
   * The engine's own LoadModel asks for a model by name before registering
   * it; once anything else (a texture under a random name, say) has been
   * registered, a new model name reads past the end of the registry.
   */
  lemma GetResourceAsWrittenReadsPastTheEnd()
    ensures GetResourceAsWritten([Entry("aBcDeFg", 0)], "Models/Tank/tank.fbx") == PastTheEnd
  {
    assert "aBcDeFg" != "Models/Tank/tank.fbx";
  }

  class ResourceManager<R> {
    /** m_resources. */
    var resources: seq<Entry<R>>
    /** The Dispose calls made on registered resources, in order. */
    var disposed: seq<R>

    /** IResourceManager(): an empty registry (the reserve(100) only affects capacity). */
    constructor ()
      ensures resources == [] && disposed == []
    {
      resources := [];
      disposed := [];
    }

    /** AddResource(resource, name): append the resource under the name and return it. */
    method AddResource(resource: R, name: string) returns (stored: R)
      modifies this
      ensures stored == resource
      ensures resources == old(resources) + [Entry(name, resource)]
      ensures disposed == old(disposed)
    {
      resources := resources + [Entry(name, resource)];
      stored := resource;
    }

    /** AddResource(resource): the same, under a fresh 7-character random name. */
    method AddUnnamedResource(resource: R) returns (stored: R)
      modifies this
      ensures stored == resource
      ensures |resources| == |old(resources)| + 1 && resources[..|old(resources)|] == old(resources)
      ensures resources[|old(resources)|].resource == resource
      ensures var name := resources[|old(resources)|].name;
              |name| == 7 && forall k :: 0 <= k < |name| ==> InAlphabet(name[k])
      ensures disposed == old(disposed)
    {
      var name := GetRandomString(7);
      stored := AddResource(resource, name);
    }

    /**
     * GetResource with the missing-name case handled: None when no entry has
     * the name (including the empty registry, where the source returns
     * nullptr), otherwise the first entry with it.
     */
    function GetResource(name: string): (found: Option<R>)
      reads this
      ensures found.None? <==> forall i :: 0 <= i < |resources| ==> resources[i].name != name
      ensures found.Some? ==> exists i :: 0 <= i < |resources| && resources[i].name == name
                                          && found.value == resources[i].resource
                                          && forall j :: 0 <= j < i ==> resources[j].name != name
    {
      match FirstIndexOf(resources, name)
      case None => None
      case Some(i) => Some(resources[i].resource)
    }

    /**
     * RemoveResource(name): dispose the first entry with the name, then erase
     * it.  find_if's end() is dereferenced when the name is absent, so the
     * name must be registered.
     */
    method RemoveResource(name: string)
      requires exists i :: 0 <= i < |resources| && resources[i].name == name
      modifies this
      ensures var index := FirstIndexOf(old(resources), name).value;
              && disposed == old(disposed) + [old(resources)[index].resource]
              && resources == Erase(old(resources), index)
    {
      var index := FirstIndexOf(resources, name).value;
      disposed := disposed + [resources[index].resource];
      resources := Erase(resources, index);
    }

    /** ~IResourceManager: dispose every entry once, in order, then clear. */
    method Destroy()
      modifies this
      ensures disposed == old(disposed) + Resources(old(resources))
      ensures resources == []
    {
      var i := 0;
      while i < |resources|
        invariant 0 <= i <= |resources|
        invariant resources == old(resources)
        invariant disposed == old(disposed) + Resources(resources)[..i]
      {
        ghost var all := Resources(resources);
        assert all[..i + 1] == all[..i] + [resources[i].resource];
        disposed := disposed + [resources[i].resource];
        assert disposed == old(disposed) + (all[..i] + [resources[i].resource]);
        i := i + 1;
      }
      assert Resources(resources)[..i] == Resources(resources);
      resources := [];
    }
  }

  /** Registering a name that was absent and removing it again restores the registry. */
  lemma AddThenRemoveRestores<R>(entries: seq<Entry<R>>, name: string, resource: R)
    requires forall i :: 0 <= i < |entries| ==> entries[i].name != name
    ensures FirstIndexOf(entries + [Entry(name, resource)], name) == Some(|entries|)
    ensures Erase(entries + [Entry(name, resource)], |entries|) == entries
  {
    FirstIndexAfterAppend(entries, Entry(name, resource), name);
  }
}
