/**
 * Bot commands: the command object (its description normalisation and callback
 * registration) and the process-wide registry that `add_commands` fills.
 * Each registered name gets a class named `name.capitalize()`; the command's
 * public name is that class name lower-cased.
 */
module Commands {
  import opened Wrappers
  import opened PyStr

  /** Descriptions are cut to this many characters. */
  const DescriptionLimit: nat := 25

  /**
   * A callback argument: a falsy value such as `None` (`NoCallback`), or a truthy
   * value with an identity that may or may not be callable.
   */
  datatype CallbackArg = NoCallback | Given(id: nat, isCallable: bool)

  /** A command as the platform lists it. */
  datatype CommandSpec = CommandSpec(command: string, description: string)

  function CallbackOf(cb: CallbackArg): Option<nat>
  {
    if cb.Given? then Some(cb.id) else None
  }

  predicate RejectedCallback(cb: CallbackArg)
  {
    cb.Given? && !cb.isCallable
  }

  /**
   * The value the description setter stores: `desc.capitalize()[:25]` for a string,
   * the class name for anything else (`None`).
   */
  function NormalizeDescription(className: string, desc: Option<string>): (r: string)
    ensures desc.None? ==> r == className
    ensures desc.Some? ==> |r| == (if |desc.value| < DescriptionLimit then |desc.value| else DescriptionLimit)
    ensures desc.Some? ==> r == Capitalize(desc.value)[..|r|]
  {
    if desc.None? then className else Prefix(Capitalize(desc.value), DescriptionLimit)
  }

  class BotCommand {
    /** the name of the command's class */
    const className: string
    var description: string
    var callback: Option<nat>

    /** A fresh instance with the class-level defaults `_description = ""` and `callback = None`. */
    constructor Init(className: string)
      ensures this.className == className && description == "" && callback == None
    {
      this.className := className;
      description := "";
      callback := None;
    }

    /** The `command` property. */
    function Command(): (r: string)
      ensures |r| == |className|
      ensures forall i :: 0 <= i < |r| ==> r[i] == LowerChar(className[i])
    {
      Lower(className)
    }

    /** The `description` setter. */
    method SetDescription(desc: Option<string>)
      modifies this`description
      ensures description == NormalizeDescription(className, desc)
    {
      description := NormalizeDescription(className, desc);
    }

    /** `register_callback`: `TypeError` for anything not callable, leaving `callback` as it was. */
    method RegisterCallback(cb: CallbackArg) returns (err: Option<PyError>)
      modifies this`callback
      ensures cb.Given? && cb.isCallable ==> err == None && callback == Some(cb.id)
      ensures !(cb.Given? && cb.isCallable) ==> err == Some(TypeError) && callback == old(callback)
    {
      if cb.Given? && cb.isCallable {
        callback := Some(cb.id);
        err := None;
      } else {
        err := Some(TypeError);
      }
    }

    /**
     * `__init__(bot, callback, description)`: a truthy callback is registered first
     * (so a non-callable one aborts construction with `TypeError`), then the
     * description is set.
     */
    static method Create(className: string, cb: CallbackArg, desc: Option<string>) returns (r: Result<BotCommand>)
      ensures r.Err? <==> RejectedCallback(cb)
      ensures r.Err? ==> r.error == TypeError
      ensures r.Ok? ==> fresh(r.value) && r.value.className == className
      ensures r.Ok? ==> r.value.callback == CallbackOf(cb)
      ensures r.Ok? ==> r.value.description == NormalizeDescription(className, desc)
    {
      var c := new BotCommand.Init(className);
      if cb.Given? {
        var err := c.RegisterCallback(cb);
        if err.Some? {
          return Err(TypeError);
        }
      }
      c.SetDescription(desc);
      r := Ok(c);
    }
  }

  /** The public name of a command registered under `name` is `name` lower-cased. */
  lemma CommandIsLowerName(c: BotCommand, name: string)
    requires c.className == Capitalize(name)
    ensures c.Command() == Lower(name)
  {
    LowerOfCapitalize(name);
  }

  predicate Distinct(ns: seq<string>)
  {
    forall i, j :: 0 <= i < j < |ns| ==> ns[i] != ns[j]
  }

  function NamesOf(pairs: seq<(string, CallbackArg)>): (ns: seq<string>)
    ensures |ns| == |pairs|
    ensures forall k :: 0 <= k < |pairs| ==> ns[k] == pairs[k].0
  {
    seq(|pairs|, k requires 0 <= k < |pairs| => pairs[k].0)
  }

  lemma NamesOfSnoc(front: seq<(string, CallbackArg)>, p: (string, CallbackArg))
    ensures NamesOf(front + [p]) == NamesOf(front) + [p.0]
  {
  }

  /**
   * The state of the loop of `add_commands`: the registered names in insertion order,
   * the entries added so far, and whether the loop stopped with `TypeError`.
   */
  datatype AddPlan = AddPlan(names: seq<string>, added: seq<(string, CallbackArg)>, failed: bool)

  /**
   * The first `n` iterations of the loop of `add_commands` over the `(name, callback)`
   * pairs, starting from the registered names `known`: a registered name is skipped,
   * a new name with a non-callable callback stops the loop, any other new name is added.
   */
  function PlanAdd(known: seq<string>, pairs: seq<(string, CallbackArg)>, n: nat): (r: AddPlan)
    requires n <= |pairs|
    ensures known <= r.names
    ensures |r.added| <= n
  {
    if n == 0 then AddPlan(known, [], false)
    else
      var p := PlanAdd(known, pairs, n - 1);
      var e := pairs[n - 1];
      if p.failed || e.0 in p.names then p
      else if RejectedCallback(e.1) then AddPlan(p.names, p.added, true)
      else AddPlan(p.names + [e.0], p.added + [e], false)
  }

  /** The registered names are the old ones followed by the names of the added entries. */
  lemma {:induction false} PlanAddNames(known: seq<string>, pairs: seq<(string, CallbackArg)>, n: nat)
    requires n <= |pairs|
    ensures PlanAdd(known, pairs, n).names == known + NamesOf(PlanAdd(known, pairs, n).added)
  {
    if n > 0 {
      PlanAddNames(known, pairs, n - 1);
      var p := PlanAdd(known, pairs, n - 1);
      var e := pairs[n - 1];
      NamesOfSnoc(p.added, e);
    }
  }

  /** Once the loop has stopped, later pairs change nothing. */
  lemma {:induction false} PlanAddStopped(known: seq<string>, pairs: seq<(string, CallbackArg)>, i: nat, n: nat)
    requires i <= n <= |pairs| && PlanAdd(known, pairs, i).failed
    ensures PlanAdd(known, pairs, n) == PlanAdd(known, pairs, i)
    decreases n
  {
    if n > i {
      PlanAddStopped(known, pairs, i, n - 1);
    }
  }

  /** Only names not yet registered are added, each once: the registry's names stay distinct. */
  lemma {:induction false} PlanAddKeepsDistinct(known: seq<string>, pairs: seq<(string, CallbackArg)>, n: nat)
    requires n <= |pairs| && Distinct(known)
    ensures Distinct(PlanAdd(known, pairs, n).names)
  {
    if n > 0 {
      PlanAddKeepsDistinct(known, pairs, n - 1);
    }
  }

  /** Every added entry is one of the first `n` arguments. */
  lemma {:induction false} PlanAddFromPairs(known: seq<string>, pairs: seq<(string, CallbackArg)>, n: nat)
    requires n <= |pairs|
    ensures forall j :: 0 <= j < |PlanAdd(known, pairs, n).added| ==>
      exists k :: 0 <= k < n && pairs[k] == PlanAdd(known, pairs, n).added[j]
  {
    if n > 0 {
      PlanAddFromPairs(known, pairs, n - 1);
      var p := PlanAdd(known, pairs, n - 1).added;
      var added := PlanAdd(known, pairs, n).added;
      forall j | 0 <= j < |added|
        ensures exists k :: 0 <= k < n && pairs[k] == added[j]
      {
        if j < |p| {
          assert added[j] == p[j];
        } else {
          assert added[j] == pairs[n - 1];
        }
      }
    } else {
      assert PlanAdd(known, pairs, n).added == [];
    }
  }

  /** Some of the first `n` pairs has name `x`. */
  predicate NamedBefore(pairs: seq<(string, CallbackArg)>, n: nat, x: string)
  {
    exists k :: 0 <= k < n && k < |pairs| && pairs[k].0 == x
  }

  /** Without an error, afterwards exactly the old names and the argument names are registered. */
  lemma {:induction false} PlanAddCovers(known: seq<string>, pairs: seq<(string, CallbackArg)>, n: nat, x: string)
    requires n <= |pairs| && !PlanAdd(known, pairs, n).failed
    ensures x in PlanAdd(known, pairs, n).names <==> x in known || NamedBefore(pairs, n, x)
  {
    if n > 0 {
      var p := PlanAdd(known, pairs, n - 1);
      assert !p.failed;
      PlanAddCovers(known, pairs, n - 1, x);
      if NamedBefore(pairs, n, x) && !NamedBefore(pairs, n - 1, x) {
        assert pairs[n - 1].0 == x;
      }
    }
  }

  /** One of the first `n` pairs names a command not in `known` and brings a non-callable callback. */
  predicate RejectedBefore(known: seq<string>, pairs: seq<(string, CallbackArg)>, n: nat)
  {
    exists k :: 0 <= k < n && k < |pairs| && pairs[k].0 !in known && RejectedCallback(pairs[k].1)
  }

  /**
   * For distinct keyword names, `add_commands` raises `TypeError` exactly when some
   * not-yet-registered name comes with a truthy non-callable callback.
   */
  lemma {:induction false} PlanAddFailsIff(known: seq<string>, pairs: seq<(string, CallbackArg)>, n: nat)
    requires n <= |pairs|
    requires forall i, j :: 0 <= i < j < n ==> pairs[i].0 != pairs[j].0
    ensures PlanAdd(known, pairs, n).failed <==> RejectedBefore(known, pairs, n)
  {
    if n > 0 {
      var p := PlanAdd(known, pairs, n - 1);
      var e := pairs[n - 1];
      PlanAddFailsIff(known, pairs, n - 1);
      if !p.failed {
        PlanAddNames(known, pairs, n - 1);
        PlanAddFromPairs(known, pairs, n - 1);
        assert forall j :: 0 <= j < |p.added| ==> p.added[j].0 != e.0;
        assert e.0 !in NamesOf(p.added);
        assert e.0 in p.names <==> e.0 in known;
        if RejectedBefore(known, pairs, n) {
          var k :| 0 <= k < n && pairs[k].0 !in known && RejectedCallback(pairs[k].1);
          assert k == n - 1;
        }
      }
    }
  }

  /** The registry: the `commands` dict (with its insertion order) and `has_unset_commands`. */
  class CommandRegistry {
    /** the keys of `commands` in insertion order */
    var names: seq<string>
    var commands: map<string, BotCommand>
    var hasUnsetCommands: bool

    ghost predicate Valid()
      reads this
    {
      && (forall n :: n in commands <==> n in names)
      && Distinct(names)
      && (forall n {:trigger Capitalize(n)} :: n in commands ==> commands[n].className == Capitalize(n))
    }

    constructor ()
      ensures Valid() && names == [] && commands == map[] && !hasUnsetCommands
    {
      names := [];
      commands := map[];
      hasUnsetCommands := false;
    }

    /** The listing `(command, description)` of the given registered names, in order. */
    function ListingOf(ns: seq<string>): (l: seq<CommandSpec>)
      reads this, commands.Values
      requires forall n :: n in ns ==> n in commands
      ensures |l| == |ns|
      ensures forall i :: 0 <= i < |ns| ==>
        l[i] == CommandSpec(commands[ns[i]].Command(), commands[ns[i]].description)
    {
      if ns == [] then []
      else [CommandSpec(commands[ns[0]].Command(), commands[ns[0]].description)] + ListingOf(ns[1..])
    }

    /** `commands.values()` seen as `(command, description)` pairs. */
    function Listing(): (l: seq<CommandSpec>)
      reads this, commands.Values
      requires Valid()
      ensures |l| == |names|
      ensures forall i :: 0 <= i < |names| ==>
        l[i] == CommandSpec(commands[names[i]].Command(), commands[names[i]].description)
    {
      ListingOf(names)
    }

    /**
     * Each name in `acc` maps to a command carrying that entry's callback and, as
     * description, its class name.
     */
    ghost predicate Carries(acc: seq<(string, CallbackArg)>)
      reads this, commands.Values
    {
      forall k :: 0 <= k < |acc| ==>
        acc[k].0 in commands && commands[acc[k].0].callback == CallbackOf(acc[k].1) &&
        commands[acc[k].0].description == commands[acc[k].0].className
    }

    /** Stores the command `c` made for the new name `name` (with callback argument `cb`), last in insertion order. */
    method Insert(name: string, c: BotCommand, ghost cb: CallbackArg, ghost acc: seq<(string, CallbackArg)>)
      requires Valid() && name !in commands && Carries(acc)
      requires c.className == Capitalize(name) && c.callback == CallbackOf(cb) && c.description == c.className
      modifies this
      ensures Valid() && hasUnsetCommands && Carries(acc + [(name, cb)])
      ensures names == old(names) + [name] && commands == old(commands)[name := c]
    {
      ghost var cmds := commands;
      commands := commands[name := c];
      names := names + [name];
      hasUnsetCommands := true;
      ghost var grown := acc + [(name, cb)];
      forall k | 0 <= k < |grown|
        ensures grown[k].0 in commands && commands[grown[k].0].callback == CallbackOf(grown[k].1)
        ensures commands[grown[k].0].description == commands[grown[k].0].className
      {
        if k < |acc| {
          assert grown[k] == acc[k] && acc[k].0 in cmds && acc[k].0 != name;
        }
      }
    }

    /** One new name in `add_commands`: build its command object and store it. */
    method AddOne(name: string, cb: CallbackArg, ghost before: map<string, BotCommand>, ghost acc: seq<(string, CallbackArg)>)
      returns (err: Option<PyError>)
      requires Valid() && name !in commands && Carries(acc)
      modifies this
      ensures Valid()
      ensures err == (if RejectedCallback(cb) then Some(TypeError) else None)
      ensures err.Some? ==> names == old(names) && commands == old(commands) && hasUnsetCommands == old(hasUnsetCommands)
      ensures err.None? ==> names == old(names) + [name] && hasUnsetCommands && Carries(acc + [(name, cb)])
      ensures err.None? ==> commands == old(commands)[name := commands[name]] && commands[name] !in before.Values
    {
      var made := BotCommand.Create(Capitalize(name), cb, None);
      if made.Err? {
        return Some(TypeError);
      }
      Insert(name, made.value, cb, acc);
      err := None;
    }

    /**
     * The state after `i` iterations of the loop of `add_commands`, which started from
     * the names `known`, the commands `before` and the flag `had`: the entries `acc`
     * were added and `failed` says whether the loop stopped with `TypeError`.
     */
    ghost predicate Progress(known: seq<string>, before: map<string, BotCommand>, had: bool,
                             pairs: seq<(string, CallbackArg)>, i: nat, acc: seq<(string, CallbackArg)>, failed: bool)
      reads this, commands.Values
    {
      && i <= |pairs| && Valid() && Carries(acc)
      && PlanAdd(known, pairs, i) == AddPlan(names, acc, failed)
      && (forall n :: n in before ==> n in commands && commands[n] == before[n])
      && (forall n :: n in commands && n !in before ==> commands[n] !in before.Values)
      && (if |acc| > 0 then hasUnsetCommands else hasUnsetCommands == had)
    }

    /** One iteration of the loop of `add_commands`, on the pair at index `i`. */
    method AddAt(pairs: seq<(string, CallbackArg)>, i: nat, ghost known: seq<string>, ghost before: map<string, BotCommand>,
                 ghost had: bool, ghost acc: seq<(string, CallbackArg)>)
      returns (err: Option<PyError>, ghost acc': seq<(string, CallbackArg)>)
      requires i < |pairs| && Progress(known, before, had, pairs, i, acc, false)
      modifies this
      ensures Progress(known, before, had, pairs, i + 1, acc', err.Some?) && err in {None, Some(TypeError)}
    {
      var (name, cb) := pairs[i];
      acc' := acc;
      if name in commands {
        return None, acc';
      }
      err := AddOne(name, cb, before, acc);
      if err.None? {
        acc' := acc + [pairs[i]];
      }
    }

    /**
     * `add_commands(**pairs)`: a name already registered is skipped; a new one gets a
     * fresh command whose class is `name.capitalize()`, whose description is that
     * class name, and `has_unset_commands` becomes true. A non-callable callback for
     * a new name raises `TypeError` and ends the loop.
     */
    method AddCommands(pairs: seq<(string, CallbackArg)>) returns (err: Option<PyError>)
      requires Valid()
      modifies this
      ensures Valid()
      ensures names == old(names) + NamesOf(PlanAdd(old(names), pairs, |pairs|).added)
      ensures err == (if PlanAdd(old(names), pairs, |pairs|).failed then Some(TypeError) else None)
      ensures forall n :: n in old(commands) ==> n in commands && commands[n] == old(commands[n])
      ensures forall n :: n in commands && n !in old(commands) ==> commands[n] !in old(commands).Values
      ensures Carries(PlanAdd(old(names), pairs, |pairs|).added)
      ensures hasUnsetCommands == (old(hasUnsetCommands) || |PlanAdd(old(names), pairs, |pairs|).added| > 0)
    {
      ghost var acc: seq<(string, CallbackArg)> := [];
      err := None;
      var i := 0;
      while i < |pairs| && err.None?
        invariant Progress(old(names), old(commands), old(hasUnsetCommands), pairs, i, acc, err.Some?)
        invariant err in {None, Some(TypeError)}
      {
        err, acc := AddAt(pairs, i, old(names), old(commands), old(hasUnsetCommands), acc);
        i := i + 1;
      }
      Finished(old(names), old(commands), old(hasUnsetCommands), pairs, i, acc, err.Some?);
    }

    /** What the state after the loop of `add_commands`, run to the end or stopped, says about the registry. */
    lemma Finished(known: seq<string>, before: map<string, BotCommand>, had: bool,
                   pairs: seq<(string, CallbackArg)>, i: nat, acc: seq<(string, CallbackArg)>, failed: bool)
      requires Progress(known, before, had, pairs, i, acc, failed) && (i == |pairs| || failed)
      ensures Valid()
      ensures names == known + NamesOf(PlanAdd(known, pairs, |pairs|).added)
      ensures failed == PlanAdd(known, pairs, |pairs|).failed
      ensures forall n :: n in before ==> n in commands && commands[n] == before[n]
      ensures forall n :: n in commands && n !in before ==> commands[n] !in before.Values
      ensures Carries(PlanAdd(known, pairs, |pairs|).added)
      ensures hasUnsetCommands == (had || |PlanAdd(known, pairs, |pairs|).added| > 0)
    {
      if failed {
        PlanAddStopped(known, pairs, i, |pairs|);
      }
      PlanAddNames(known, pairs, |pairs|);
    }
  }
}
