/**
 * The `consul_definition` resource: a service or health-check registration
 * written as its own JSON file in the agent's configuration directory.  The
 * file nests the caller's parameters, with the definition's name merged in,
 * under a single top-level key naming the definition's type.
 */
module ConsulDefinition {

  import opened Wrappers
  import opened Json
  import opened FileSystem

  datatype DefinitionType = Service | Check

  /** The type's name: the `type` attribute and the document's top-level key. */
  function TypeName(t: DefinitionType): string
  {
    match t
    case Service => "service"
    case Check => "check"
  }

  /** Reads the `type` attribute; any other word is refused. */
  function ParseType(s: string): (r: Result<DefinitionType, string>)
    ensures r.Ok? <==> s == "service" || s == "check"
    ensures r.Ok? ==> TypeName(r.value) == s
    ensures r.Err? ==> r.error == s
  {
    if s == "service" then Ok(Service)
    else if s == "check" then Ok(Check)
    else Err(s)
  }

  /** Reading a type's name gives the type back. */
  lemma ParseTypeName(t: DefinitionType)
    ensures ParseType(TypeName(t)) == Ok(t)
  {
  }

  /**
   * The parameters with `name: name` merged in as Ruby's `Hash#merge` does:
   * an existing `name` keeps its place and takes the new value, otherwise
   * `name` is appended after the caller's keys.
   */
  function WithName(params: seq<(string, Value)>, name: string): (r: seq<(string, Value)>)
    ensures Lookup(r, "name") == Some(Str(name))
    ensures forall k :: k != "name" ==> Lookup(r, k) == Lookup(params, k)
  {
    if params == [] then [("name", Str(name))]
    else if params[0].0 == "name" then [("name", Str(name))] + params[1..]
    else [params[0]] + WithName(params[1..], name)
  }

  /** Merging keeps the caller's keys in order: `name` in its place, or appended last. */
  lemma {:induction false} WithNameKeys(params: seq<(string, Value)>, name: string)
    ensures "name" !in Keys(params) ==> WithName(params, name) == params + [("name", Str(name))]
    ensures "name" in Keys(params) ==> Keys(WithName(params, name)) == Keys(params)
  {
    if params != [] && params[0].0 != "name" {
      WithNameKeys(params[1..], name);
      assert Keys(params) == [params[0].0] + Keys(params[1..]);
    }
  }

  /** The keys of the merge are the caller's keys and `name`. */
  lemma WithNameKeySet(params: seq<(string, Value)>, name: string)
    ensures forall k :: k in Keys(WithName(params, name)) <==> k in Keys(params) || k == "name"
  {
    forall k ensures k in Keys(WithName(params, name)) <==> k in Keys(params) || k == "name" {
      if k != "name" {
        assert Lookup(WithName(params, name), k) == Lookup(params, k);
      }
    }
  }

  /** The merge of a hash is a hash. */
  lemma {:induction false} WithNameUnique(params: seq<(string, Value)>, name: string)
    requires UniqueKeys(params)
    ensures UniqueKeys(WithName(params, name))
  {
    if params == [] {
    } else if params[0].0 == "name" {
      UniqueKeysCons(params[0], params[1..]);
      assert params == [params[0]] + params[1..];
      UniqueKeysCons(("name", Str(name)), params[1..]);
    } else {
      assert params == [params[0]] + params[1..];
      UniqueKeysCons(params[0], params[1..]);
      WithNameUnique(params[1..], name);
      WithNameKeySet(params[1..], name);
      UniqueKeysCons(params[0], WithName(params[1..], name));
    }
  }

  /** The agent's configuration directory, where definitions are written. */
  const ConfigDir := "/etc/consul"

  const DefinitionMode := "0640"

  /** `/etc/consul/<name>.json`. */
  function DefinitionPath(name: string): string
  {
    ConfigDir + "/" + name + ".json"
  }

  /** The definition file's document: `{type: parameters.merge(name: name)}`. */
  function DefinitionDocument(name: string, t: DefinitionType, params: seq<(string, Value)>): Value
  {
    Obj([(TypeName(t), Obj(WithName(params, name)))])
  }

  /** What creating a definition converges: the directory, then the file. */
  function DefinitionPlan(name: string, t: DefinitionType, params: seq<(string, Value)>): seq<Instr>
  {
    [ EnsureDir(ConfigDir),
      WriteFile(DefinitionPath(name), Some(Document(DefinitionDocument(name, t, params))),
                DefinitionMode, "consul", "consul", false) ]
  }

  /**
   * The document has one top-level key, the type's name, holding every
   * parameter the caller gave except `name`, unchanged, and `name` set to the
   * definition's name; a hash stays a hash (no key twice).
   */
  lemma DefinitionMerge(name: string, t: DefinitionType, params: seq<(string, Value)>)
    ensures var d := DefinitionDocument(name, t, params);
      d.Obj? && Keys(d.fields) == [TypeName(t)] && d.fields[0].1.Obj?
    ensures var inner := DefinitionDocument(name, t, params).fields[0].1.fields;
      Lookup(inner, "name") == Some(Str(name)) &&
      (forall k :: k != "name" ==> Lookup(inner, k) == Lookup(params, k)) &&
      (UniqueKeys(params) ==> UniqueKeys(inner))
  {
    if UniqueKeys(params) {
      WithNameUnique(params, name);
    }
  }

  /** Without a `name` parameter the caller's keys keep their order and `name` comes last. */
  lemma DefinitionKeyOrder(name: string, t: DefinitionType, params: seq<(string, Value)>)
    requires "name" !in Keys(params)
    ensures Keys(DefinitionDocument(name, t, params).fields[0].1.fields) == Keys(params) + ["name"]
  {
    WithNameKeys(params, name);
    KeysAppend(params, ("name", Str(name)));
  }

  /** A service and a check with the same name and parameters differ only in the top-level key. */
  lemma ServiceAndCheckSameShape(name: string, params: seq<(string, Value)>)
    ensures DefinitionDocument(name, Service, params).fields[0].1 ==
            DefinitionDocument(name, Check, params).fields[0].1
    ensures DefinitionDocument(name, Service, params).fields[0].0 == "service"
    ensures DefinitionDocument(name, Check, params).fields[0].0 == "check"
  {
  }

  /** For a name without '/', the directory ensured first is the file's own directory. */
  lemma DefinitionInConfigDir(name: string)
    requires '/' !in name
    ensures Dirname(DefinitionPath(name)) == ConfigDir
  {
    var file := name + ".json";
    assert '/' !in file by {
      forall j | 0 <= j < |file| ensures file[j] != '/' {
        if j < |name| {
          assert file[j] == name[j];
        } else {
          assert file[j] == ".json"[j - |name|];
        }
      }
    }
    assert DefinitionPath(name) == ConfigDir + "/" + file;
    DirnameOfJoin(ConfigDir, file);
  }

  /**
   * After creating a definition, `/etc/consul` is a directory and the file
   * holds the document, mode 0640, owned by `consul:consul`; every other path
   * is as it was, and converging again changes nothing.
   */
  lemma DefinitionWritten(name: string, t: DefinitionType, params: seq<(string, Value)>, tree: Tree)
    ensures var after, path := Apply(tree, DefinitionPlan(name, t, params)), DefinitionPath(name);
      Get(after, ConfigDir) == Some(Directory) &&
      HasFile(after, path, Some(Document(DefinitionDocument(name, t, params))), "0640", "consul", "consul")
    ensures forall p :: p != ConfigDir && p != DefinitionPath(name) ==>
      Get(Apply(tree, DefinitionPlan(name, t, params)), p) == Get(tree, p)
    ensures var plan := DefinitionPlan(name, t, params); Apply(Apply(tree, plan), plan) == Apply(tree, plan)
  {
    var plan := DefinitionPlan(name, t, params);
    var path := DefinitionPath(name);
    assert path != ConfigDir by {
      assert |path| > |ConfigDir|;
    }
    WriteLands(tree, plan, 1);
    ApplyLastTouch(tree, plan, 0, ConfigDir);
    forall p | p != ConfigDir && p != path
      ensures Get(Apply(tree, plan), p) == Get(tree, p)
    {
      assert p !in Targets(plan);
      ApplyFrame(tree, plan, p);
    }
    ApplyIdempotent(tree, plan);
  }
}
