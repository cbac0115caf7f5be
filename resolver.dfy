/** How the bootstrap script's `require` calls are answered (`modRequire`), and the list of
    declared dependencies read from the function's manifest (`getDependencies`). */
module Resolver {
  import opened JsValues

  /** The import name through which the user module hands over its handler. */
  const ReservedBinding: string := "kubeless"

  /** The marker of a path relative to the user module's own directory. */
  const RelativeMarker: string := "./"

  /** What an import name resolves to. `Dependency` is loaded from the function's private
      library directory, `Sibling` from the directory of the user module, `Global` by the
      host's own loader; `ExecuteBinding` is the callable that runs the handler. */
  datatype Resolution =
    | ExecuteBinding
    | Dependency(name: string)
    | Sibling(name: string)
    | Global(name: string)

  /** `modRequire`: the first of the four rules that applies decides. */
  function Resolve(deps: seq<string>, name: string): (r: Resolution)
    ensures r.ExecuteBinding? <==> name == ReservedBinding
    ensures r.ExecuteBinding? || r.name == name
    ensures r.Dependency? <==> name != ReservedBinding && name in deps
    ensures r.Global? <==>
              name != ReservedBinding && name !in deps && !HasPrefix(name, RelativeMarker)
  {
    IndexOfZeroIsPrefix(name, RelativeMarker);
    if name == ReservedBinding then ExecuteBinding
    else if name in deps then Dependency(name)
    else if IndexOf(name, RelativeMarker) == 0 then Sibling(name)
    else Global(name)
  }

  /** The reserved name wins over a declared dependency of the same name. */
  lemma ReservedBindingWins(deps: seq<string>)
    ensures Resolve(deps, ReservedBinding) == ExecuteBinding
  {
  }

  /** A declared dependency wins over the relative-path rule. */
  lemma DeclaredBeforeRelative(deps: seq<string>, name: string)
    requires name != ReservedBinding && name in deps
    ensures Resolve(deps, name) == Dependency(name)
  {
  }

  /** The relative rule applies exactly to undeclared names that start with "./". */
  lemma SiblingExactlyForDotSlash(deps: seq<string>, name: string)
    ensures Resolve(deps, name).Sibling? <==>
              name != ReservedBinding && name !in deps && HasPrefix(name, RelativeMarker)
  {
    IndexOfZeroIsPrefix(name, RelativeMarker);
  }

  /** A name that climbs to the parent directory is not relative in this sense: unless it
      is declared, it goes to the host's loader. */
  lemma ParentPathIsGlobal(deps: seq<string>, rest: string)
    requires "../" + rest !in deps
    ensures Resolve(deps, "../" + rest) == Global("../" + rest)
  {
    var name := "../" + rest;
    IndexOfZeroIsPrefix(name, RelativeMarker);
    assert name[1] == '.';
  }

  /** `getDependencies`: the manifest is what reading and `JSON.parse` gave (an error if
      either threw). The own property names of its `dependencies` field are returned when
      that field is a non-null object; in every other case the list is empty. */
  function Dependencies(manifest: Result<JsValue>): (deps: seq<string>)
    ensures manifest.Err? ==> deps == []
    ensures manifest.Ok? && (manifest.value.Null? || manifest.value.Undef?) ==> deps == []
    ensures deps != [] ==> manifest.Ok? && IsNonNullObject(Get(manifest.value, "dependencies"))
    ensures manifest.Ok? && IsNonNullObject(Get(manifest.value, "dependencies")) ==>
              forall k :: k in deps <==> HasOwn(Get(manifest.value, "dependencies"), k)
  {
    match manifest
    case Err(_) => []
    case Ok(data) =>
      if data.Null? || data.Undef? then [] // reading a field of these throws a TypeError
      else
        var field := Get(data, "dependencies");
        if Truthy(field) && TypeOf(field) == "object" then OwnPropertyNames(field) else []
  }

  /** A dependency list written as an array declares the index names and "length". */
  lemma ArrayDependencies(data: JsValue, items: seq<JsValue>)
    requires data.Obj? && Get(data, "dependencies") == Arr(items)
    ensures forall i :: 0 <= i < |items| ==> NatToString(i) in Dependencies(Ok(data))
    ensures "length" in Dependencies(Ok(data))
    ensures forall k :: k in Dependencies(Ok(data)) && k != "length" ==>
              ParseIndex(k).Some? && ParseIndex(k).value < |items|
  {
    forall i | 0 <= i < |items| ensures NatToString(i) in Dependencies(Ok(data)) {
      IndexNameParses(i);
      assert HasOwn(Arr(items), NatToString(i));
    }
  }

  /** Names a record declares become resolvable from the private library directory. */
  lemma DeclaredRecordKeysResolveToLibs(data: JsValue, props: seq<(string, JsValue)>, i: nat)
    requires data.Obj? && Get(data, "dependencies") == Obj(props)
    requires i < |props| && props[i].0 != ReservedBinding
    ensures Resolve(Dependencies(Ok(data)), props[i].0) == Dependency(props[i].0)
  {
    assert HasOwn(Obj(props), props[i].0);
  }
}
