/**
 * The slash-command registry of src/commands/index.ts: a map from every
 * name and alias to its command, filled from the built-ins the module
 * exports, and the lookups over it.
 */
module Commands {
  import opened Common
  import opened Builtins
  import Registry

  /** The keys a command is registered under: its name, then its aliases in order. */
  function Keys(c: Command): (ks: seq<string>)
    ensures |ks| == 1 + |c.aliases| && ks[0] == c.name && ks[1..] == c.aliases
  {
    [c.name] + c.aliases
  }

  /** The map after setting each of `ks`, in order, to `c`. */
  function Bind(m: map<string, Command>, ks: seq<string>, c: Command): (r: map<string, Command>)
    ensures forall k :: k in r <==> k in m || k in ks
    ensures forall k :: k in ks ==> r[k] == c
    ensures forall k :: k in m && k !in ks ==> r[k] == m[k]
    decreases |ks|
  {
    if ks == [] then m else Bind(m, ks[..|ks| - 1], c)[Last(ks) := c]
  }

  class CommandRegistry {
    var commands: map<string, Command>

    constructor ()
      ensures commands == map[]
    {
      commands := map[];
    }

    /** `register`: the name and then every alias are set to `command`, overwriting earlier owners. */
    method Register(command: Command)
      modifies this
      ensures commands == Bind(old(commands), Keys(command), command)
    {
      ghost var keys := Keys(command);
      assert keys[..1] == [command.name];
      assert Bind(commands, keys[..1], command) == Bind(commands, [], command)[command.name := command];
      commands := commands[command.name := command];
      var i := 0;
      while i < |command.aliases|
        invariant 0 <= i <= |command.aliases|
        invariant commands == Bind(old(commands), keys[..i + 1], command)
      {
        assert keys[..i + 2][..i + 1] == keys[..i + 1];
        commands := commands[command.aliases[i] := command];
        i := i + 1;
      }
      assert keys[..|command.aliases| + 1] == keys;
    }

    /** `resolve`: the command registered under `input`, or null. */
    method Resolve(input: string) returns (r: Option<Command>)
      ensures r.Some? <==> input in commands
      ensures r.Some? ==> r.value == commands[input]
    {
      if input in commands {
        r := Some(commands[input]);
      } else {
        r := None;
      }
    }
  }

  /** A value of the builtin module's namespace: one command, or the `builtinCommands` list. */
  datatype Export = CommandExport(command: Command) | ListExport(commands: seq<Command>)

  /**
   * `Object.values` of the builtin module's namespace. A module namespace
   * lists its exports by name in code-unit order: builtinCommands,
   * clearCommand, exitCommand, helpCommand, modelsCommand, sessionsCommand.
   */
  const NamespaceValues: seq<Export> :=
    [ListExport(BuiltinCommands), CommandExport(ClearCommand), CommandExport(ExitCommand),
     CommandExport(HelpCommand), CommandExport(ModelsCommand), CommandExport(SessionsCommand)]

  /** One namespace value: an object with a `name` is registered; the array has none and is skipped. */
  function RegisterExport(m: map<string, Command>, value: Export): map<string, Command> {
    match value
    case CommandExport(c) => Bind(m, Keys(c), c)
    case ListExport(_) => m
  }

  /** Every namespace value, in order. */
  function RegisterAll(m: map<string, Command>, values: seq<Export>): map<string, Command>
    decreases |values|
  {
    if values == [] then m else RegisterExport(RegisterAll(m, values[..|values| - 1]), Last(values))
  }

  /** `createCommandRegistry` */
  method CreateCommandRegistry() returns (registry: CommandRegistry)
    ensures fresh(registry)
    ensures registry.commands == RegisterAll(map[], NamespaceValues)
  {
    registry := new CommandRegistry();
    RegisterValues(registry, NamespaceValues);
  }

  /** The loop of `createCommandRegistry` over the namespace values. */
  method RegisterValues(registry: CommandRegistry, values: seq<Export>)
    modifies registry
    ensures registry.commands == RegisterAll(old(registry.commands), values)
  {
    var i := 0;
    while i < |values|
      invariant 0 <= i <= |values|
      invariant registry.commands == RegisterAll(old(registry.commands), values[..i])
    {
      RegisterAllSnoc(old(registry.commands), values[..i + 1], values[..i], registry.commands);
      match values[i] {
        case CommandExport(c) => registry.Register(c);
        case ListExport(_) =>
      }
      i := i + 1;
    }
    assert values[..|values|] == values;
  }

  /** Reference lookup: the first of `cs` that has `input` among its name and aliases. */
  function Owner(input: string, cs: seq<Command>): (r: Option<Command>)
    ensures r.Some? <==> exists i :: 0 <= i < |cs| && input in Keys(cs[i])
    ensures r.Some? ==> r.value in cs && input in Keys(r.value)
  {
    if cs == [] then None
    else if input in Keys(cs[0]) then Some(cs[0])
    else
      var rest := Owner(input, cs[1..]);
      assert forall i :: 1 <= i < |cs| ==> cs[i] == cs[1..][i - 1];
      rest
  }

  /** `resolveCommand`: the canonical name of the command `input` names, or null. */
  method ResolveCommand(input: string) returns (name: Option<string>)
    ensures name.Some? <==> Owner(input, BuiltinCommands).Some?
    ensures name.Some? ==> name.value == Owner(input, BuiltinCommands).value.name
  {
    var registry := CreateCommandRegistry();
    var command := registry.Resolve(input);
    CreatedRegistryMatchesOwner(input);
    if command.Some? {
      name := Some(command.value.name);
    } else {
      name := None;
    }
  }

  // ---------------------------------------------------------------- properties

  /** No two commands of the list share a name or alias. */
  ghost predicate SeparateKeys(cs: seq<Command>) {
    forall i, j, k :: 0 <= i < |cs| && 0 <= j < |cs| && i != j && k in Keys(cs[i]) ==> k !in Keys(cs[j])
  }

  /** The second character of every name and alias of the i-th built-in. */
  function Initials(i: int): set<char> {
    if i == 0 then {'h'} else if i == 1 then {'c'} else if i == 2 then {'e', 'q'} else if i == 3 then {'m'} else {'s'}
  }

  lemma BuiltinInitials(i: int, k: string)
    requires 0 <= i < |BuiltinCommands| && k in Keys(BuiltinCommands[i])
    ensures |k| >= 2 && k[1] in Initials(i)
  {
    var c := BuiltinCommands[i];
    assert k == c.name || k in c.aliases by {
      var p :| 0 <= p < |Keys(c)| && Keys(c)[p] == k;
      if p > 0 {
        assert c.aliases[p - 1] == k;
      }
    }
  }

  /** No two built-ins share a name or alias: their second characters already differ. */
  lemma BuiltinKeysSeparate()
    ensures SeparateKeys(BuiltinCommands)
  {
    var cs := BuiltinCommands;
    forall i, j, k | 0 <= i < |cs| && 0 <= j < |cs| && i != j && k in Keys(cs[i]) ensures k !in Keys(cs[j]) {
      BuiltinInitials(i, k);
      assert Initials(i) * Initials(j) == {};
      forall k' | k' in Keys(cs[j]) ensures k' != k {
        BuiltinInitials(j, k');
      }
    }
  }

  /** When no key is shared, a key of the i-th command is owned by that command. */
  lemma OwnerOfMember(cs: seq<Command>, i: int, k: string)
    requires SeparateKeys(cs)
    requires 0 <= i < |cs| && k in Keys(cs[i])
    ensures Owner(k, cs) == Some(cs[i])
  {
    var r := Owner(k, cs);
    var j :| 0 <= j < |cs| && cs[j] == r.value;
    assert k in Keys(cs[j]);
  }

  /** Registration in namespace order, one command at a time. */
  lemma {:induction false} NamespaceTable(vs: seq<Export>, cs: seq<Command>, help: Command, clear: Command,
                                          exit: Command, models: Command, sessions: Command)
    requires vs == [ListExport(cs), CommandExport(clear), CommandExport(exit),
                    CommandExport(help), CommandExport(models), CommandExport(sessions)]
    ensures RegisterAll(map[], vs) ==
            Bind(Bind(Bind(Bind(Bind(map[], Keys(clear), clear), Keys(exit), exit), Keys(help), help),
                      Keys(models), models), Keys(sessions), sessions)
  {
    var m0: map<string, Command> := map[];
    var m1 := Bind(m0, Keys(clear), clear);
    var m2 := Bind(m1, Keys(exit), exit);
    var m3 := Bind(m2, Keys(help), help);
    var m4 := Bind(m3, Keys(models), models);
    RegisterAllSnoc(m0, vs[..1], [], m0);
    RegisterAllSnoc(m0, vs[..2], vs[..1], m0);
    RegisterAllSnoc(m0, vs[..3], vs[..2], m1);
    RegisterAllSnoc(m0, vs[..4], vs[..3], m2);
    RegisterAllSnoc(m0, vs[..5], vs[..4], m3);
    RegisterAllSnoc(m0, vs, vs[..5], m4);
  }

  /** One more registration on top of a known table. */
  lemma RegisterAllSnoc(m: map<string, Command>, vs: seq<Export>, init: seq<Export>, before: map<string, Command>)
    requires |vs| > 0 && init == vs[..|vs| - 1] && RegisterAll(m, init) == before
    ensures RegisterAll(m, vs) == RegisterExport(before, Last(vs))
  {
  }

  /**
   * Registering five commands with distinct keys in namespace order gives
   * the same table as looking each key up in list order: no registration
   * overwrites another.
   */
  lemma {:induction false} NamespaceOrderIrrelevant(input: string, vs: seq<Export>, cs: seq<Command>,
                                                    help: Command, clear: Command, exit: Command,
                                                    models: Command, sessions: Command)
    requires cs == [help, clear, exit, models, sessions]
    requires vs == [ListExport(cs), CommandExport(clear), CommandExport(exit),
                    CommandExport(help), CommandExport(models), CommandExport(sessions)]
    requires SeparateKeys(cs)
    ensures var t := RegisterAll(map[], vs);
            (input in t <==> Owner(input, cs).Some?) &&
            (input in t ==> t[input] == Owner(input, cs).value)
  {
    NamespaceTable(vs, cs, help, clear, exit, models, sessions);
    var m1 := Bind(map[], Keys(clear), clear);
    var m2 := Bind(m1, Keys(exit), exit);
    var m3 := Bind(m2, Keys(help), help);
    var m4 := Bind(m3, Keys(models), models);
    var t := Bind(m4, Keys(sessions), sessions);
    assert cs[0] == help && cs[1] == clear && cs[2] == exit && cs[3] == models && cs[4] == sessions;
    if input in Keys(sessions) {
      OwnerOfMember(cs, 4, input);
    } else if input in Keys(models) {
      OwnerOfMember(cs, 3, input);
    } else if input in Keys(help) {
      assert t[input] == m4[input] == m3[input];
      OwnerOfMember(cs, 0, input);
    } else if input in Keys(exit) {
      assert t[input] == m4[input] == m3[input] == m2[input];
      OwnerOfMember(cs, 2, input);
    } else if input in Keys(clear) {
      assert t[input] == m4[input] == m3[input] == m2[input] == m1[input];
      OwnerOfMember(cs, 1, input);
    } else {
      assert input !in t;
      forall i | 0 <= i < |cs| ensures input !in Keys(cs[i]) {
      }
    }
  }

  /**
   * The registry `createCommandRegistry` builds resolves exactly the names
   * and aliases of the built-ins, each to its own command, although the
   * namespace order differs from the order of `builtinCommands`.
   */
  lemma CreatedRegistryMatchesOwner(input: string)
    ensures var t := RegisterAll(map[], NamespaceValues);
            (input in t <==> Owner(input, BuiltinCommands).Some?) &&
            (input in t ==> t[input] == Owner(input, BuiltinCommands).value)
  {
    BuiltinKeysSeparate();
    NamespaceOrderIrrelevant(input, NamespaceValues, BuiltinCommands,
                             HelpCommand, ClearCommand, ExitCommand, ModelsCommand, SessionsCommand);
  }

  /** Every command and shortcut the help text advertises resolves, to the command the help text pairs it with. */
  lemma HelpTextShortcutsResolve()
    ensures forall s :: s in ["/help", "/h"] ==> Owner(s, BuiltinCommands) == Some(HelpCommand)
    ensures forall s :: s in ["/sessions", "/s"] ==> Owner(s, BuiltinCommands) == Some(SessionsCommand)
    ensures forall s :: s in ["/models", "/m"] ==> Owner(s, BuiltinCommands) == Some(ModelsCommand)
    ensures forall s :: s in ["/clear", "/c"] ==> Owner(s, BuiltinCommands) == Some(ClearCommand)
    ensures forall s :: s in ["/exit", "/quit", "/q", "/e", "/ex"] ==> Owner(s, BuiltinCommands) == Some(ExitCommand)
    ensures Owner("/unknown", BuiltinCommands) == None
  {
    BuiltinKeysSeparate();
    var cs := BuiltinCommands;
    forall s | s in ["/help", "/h"] ensures Owner(s, cs) == Some(HelpCommand) {
      OwnerOfMember(cs, 0, s);
    }
    forall s | s in ["/clear", "/c"] ensures Owner(s, cs) == Some(ClearCommand) {
      OwnerOfMember(cs, 1, s);
    }
    forall s | s in ["/exit", "/quit", "/q", "/e", "/ex"] ensures Owner(s, cs) == Some(ExitCommand) {
      OwnerOfMember(cs, 2, s);
    }
    forall s | s in ["/models", "/m"] ensures Owner(s, cs) == Some(ModelsCommand) {
      OwnerOfMember(cs, 3, s);
    }
    forall s | s in ["/sessions", "/s"] ensures Owner(s, cs) == Some(SessionsCommand) {
      OwnerOfMember(cs, 4, s);
    }
    forall i | 0 <= i < |cs| ensures "/unknown" !in Keys(cs[i]) {
    }
  }
}
