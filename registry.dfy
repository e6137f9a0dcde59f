/**
 * The tool registry of src/tools/registry.ts: a JavaScript `Map` from tool
 * name to tool. A `Map` keeps its keys in insertion order, so the model keeps
 * the entries (`tools`) and the key order (`order`) side by side.
 */
module Registry {
  import opened Common
  import opened AgentLoop

  /** `s` with every occurrence of `x` removed, order kept. */
  function Without(s: seq<string>, x: string): (r: seq<string>)
    ensures forall y :: y in r <==> y in s && y != x
    ensures |r| <= |s|
  {
    if s == [] then []
    else (if s[0] == x then [] else [s[0]]) + Without(s[1..], x)
  }

  /** The names of `names` not yet registered, in their order: what registering them appends to the key order. */
  function NewNames(names: seq<string>, tools: map<string, Tool>): (r: seq<string>)
    ensures forall n :: n in r <==> n in names && n !in tools
    ensures |r| <= |names|
  {
    if names == [] then []
    else (if names[0] in tools then [] else [names[0]]) + NewNames(names[1..], tools)
  }

  lemma NewNamesOne(n: string, tools: map<string, Tool>)
    ensures NewNames([n], tools) == if n in tools then [] else [n]
  {
    assert [n][1..] == [];
  }

  lemma {:induction false} NewNamesAppend(a: seq<string>, b: seq<string>, tools: map<string, Tool>)
    ensures NewNames(a + b, tools) == NewNames(a, tools) + NewNames(b, tools)
    decreases |a|
  {
    if a != [] {
      assert (a + b)[1..] == a[1..] + b;
      assert (a + b)[0] == a[0];
      NewNamesAppend(a[1..], b, tools);
      var head := if a[0] in tools then [] else [a[0]];
      assert NewNames(a + b, tools) == head + NewNames(a[1..] + b, tools);
      assert NewNames(a, tools) == head + NewNames(a[1..], tools);
    } else {
      assert a + b == b;
    }
  }

  ghost predicate Distinct(s: seq<string>) {
    forall i, j :: 0 <= i < j < |s| ==> s[i] != s[j]
  }

  lemma {:induction false} WithoutDistinct(s: seq<string>, x: string)
    requires Distinct(s)
    ensures Distinct(Without(s, x))
    decreases |s|
  {
    if s != [] {
      assert Distinct(s[1..]) by {
        forall i, j | 0 <= i < j < |s[1..]| ensures s[1..][i] != s[1..][j] {
          assert s[1..][i] == s[i + 1] && s[1..][j] == s[j + 1];
        }
      }
      WithoutDistinct(s[1..], x);
      var rest := Without(s[1..], x);
      assert forall k :: 0 < k < |s| ==> s[k] != s[0];
      assert s[0] !in rest;
    }
  }

  lemma {:induction false} WithoutAbsent(s: seq<string>, x: string)
    requires x !in s
    ensures Without(s, x) == s
    decreases |s|
  {
    if s != [] {
      WithoutAbsent(s[1..], x);
      assert [s[0]] + s[1..] == s;
    }
  }

  class ToolRegistry {
    var tools: map<string, Tool>
    var order: seq<string>

    /** Every tool sits under its own name, and the key order lists each key once. */
    ghost predicate Valid()
      reads this
    {
      && (forall k :: k in tools ==> tools[k].name == k)
      && (forall k :: k in tools <==> k in order)
      && Distinct(order)
    }

    constructor ()
      ensures Valid() && tools == map[] && order == []
    {
      tools := map[];
      order := [];
    }

    /** `register`: a new name goes to the end; an existing name keeps its place and gets the new tool. */
    method Register(tool: Tool)
      requires Valid()
      modifies this
      ensures Valid()
      ensures tools == old(tools)[tool.name := tool]
      ensures order == if tool.name in old(tools) then old(order) else old(order) + [tool.name]
    {
      if tool.name !in tools {
        order := order + [tool.name];
      }
      tools := tools[tool.name := tool];
    }

    /** `get`: the tool registered under `name`, or nothing. */
    method Get(name: string) returns (r: Option<Tool>)
      requires Valid()
      ensures r.Some? <==> name in tools
      ensures r.Some? ==> r.value == tools[name] && r.value.name == name
    {
      r := if name in tools then Some(tools[name]) else None;
    }

    /** `getAll`: the registry as a record, for `agentLoop`'s `tools`. */
    method GetAll() returns (all: map<string, Tool>)
      requires Valid()
      ensures all.Keys == tools.Keys
      ensures forall k :: k in all ==> all[k] == tools[k] && all[k].name == k
    {
      all := tools;
    }

    /** `list`: every registered name once, in registration order. */
    method List() returns (names: seq<string>)
      requires Valid()
      ensures names == order
      ensures forall k :: k in names <==> k in tools
      ensures |names| == |tools|
    {
      names := order;
      DistinctCardinality(order, tools.Keys);
    }

    /** `has` */
    method Has(name: string) returns (b: bool)
      ensures b <==> name in tools
    {
      b := name in tools;
    }

    /** `remove`: deletes the entry and reports whether there was one. */
    method Remove(name: string) returns (removed: bool)
      requires Valid()
      modifies this
      ensures Valid()
      ensures removed <==> name in old(tools)
      ensures tools == old(tools) - {name}
      ensures order == Without(old(order), name)
    {
      removed := name in tools;
      tools := tools - {name};
      WithoutDistinct(order, name);
      order := Without(order, name);
    }
  }

  /** A duplicate-free list of the keys of a map is as long as the map. */
  lemma {:induction false} DistinctCardinality(s: seq<string>, keys: set<string>)
    requires Distinct(s)
    requires forall k :: k in keys <==> k in s
    ensures |s| == |keys|
    decreases |s|
  {
    if s != [] {
      var rest := s[1..];
      assert Distinct(rest) by {
        forall i, j | 0 <= i < j < |rest| ensures rest[i] != rest[j] {
          assert rest[i] == s[i + 1] && rest[j] == s[j + 1];
        }
      }
      assert s[0] !in rest by {
        forall k | 0 <= k < |rest| ensures rest[k] != s[0] {
          assert rest[k] == s[k + 1];
        }
      }
      DistinctCardinality(rest, keys - {s[0]});
    } else {
      assert keys == {};
    }
  }

  /** Registering twice under one name: the second tool wins and the name is listed once. */
  method OverwriteScenario() returns (description: string, names: seq<string>)
    ensures description == "Second" && names == ["duplicate"]
  {
    var registry := new ToolRegistry();
    registry.Register(Tool("duplicate", "First", JObj([])));
    registry.Register(Tool("duplicate", "Second", JObj([])));
    var found := registry.Get("duplicate");
    description := found.value.description;
    names := registry.List();
  }

  /** Removing reports whether the name was there; the remaining names keep their order. */
  method RemoveScenario() returns (removedOnce: bool, removedTwice: bool, names: seq<string>)
    ensures removedOnce && !removedTwice && names == ["b"]
  {
    var registry := new ToolRegistry();
    registry.Register(Tool("a", "", JObj([])));
    registry.Register(Tool("b", "", JObj([])));
    removedOnce := registry.Remove("a");
    assert registry.order == ["b"] by {
      assert Without(["a", "b"], "a") == [] + Without(["b"], "a");
      assert Without(["b"], "a") == ["b"] + Without([], "a");
    }
    removedTwice := registry.Remove("a");
    WithoutAbsent(["b"], "a");
    names := registry.List();
  }
}
