/**
 * The power-up parser registry of the newer game
 * (Zapoctak.Net1/PowerUpPluginLoader.cs): a dictionary from power-up id to
 * parser in which the first registration of an id wins. The constructor files
 * the built-in `ReduceTimeParser`; `LoadPlugins` then registers whatever
 * parsers it finds in plugin assemblies.
 */
module Plugins {
  import opened Wrappers
  import opened PowerUps
  import opened LevelReader

  /**
   * The table after `Register(key, value)` in either generation: the key is
   * added only if it is absent.
   */
  function Registered<P>(m: map<string, P>, key: string, value: P): (r: map<string, P>)
    ensures key in r && r[key] == (if key in m then m[key] else value)
    ensures r.Keys == m.Keys + {key}
    ensures forall k :: k in m ==> r[k] == m[k]
  {
    if key in m then m else m[key := value]
  }

  /** The table after registering each parser of `found` under its own id, in order. */
  function RegisterAll(m: map<string, Parser>, found: seq<Parser>): map<string, Parser>
    decreases |found|
  {
    if |found| == 0 then m
    else RegisterAll(Registered(m, PowerUpId(found[0]), found[0]), found[1..])
  }

  /** The table the constructor leaves. */
  function BuiltIn(): map<string, Parser> {
    map[ReduceTimeId := ReduceTimeParser]
  }

  /**
   * Registering parsers never removes or replaces an entry, and afterwards
   * every parser found is filed under its id.
   */
  lemma {:induction false} RegisterAllKeeps(m: map<string, Parser>, found: seq<Parser>)
    ensures forall k :: k in m ==> k in RegisterAll(m, found) && RegisterAll(m, found)[k] == m[k]
    ensures forall p :: p in found ==> PowerUpId(p) in RegisterAll(m, found)
    decreases |found|
  {
    if |found| > 0 {
      var m1 := Registered(m, PowerUpId(found[0]), found[0]);
      RegisterAllKeeps(m1, found[1..]);
      forall p | p in found
        ensures PowerUpId(p) in RegisterAll(m, found)
      {
        if p != found[0] {
          assert p in found[1..];
        }
      }
    }
  }

  /**
   * A plugin that announces the id "ReduceTime" is ignored: whatever is
   * registered after the constructor, the id keeps the built-in parser.
   */
  lemma BuiltInWins(found: seq<Parser>)
    ensures ReduceTimeId in RegisterAll(BuiltIn(), found)
    ensures RegisterAll(BuiltIn(), found)[ReduceTimeId] == ReduceTimeParser
  {
    RegisterAllKeeps(BuiltIn(), found);
  }

  /** Filing parsers under their own ids keeps a registry consistent. */
  lemma {:induction false} RegisterAllConsistent(m: map<string, Parser>, found: seq<Parser>)
    requires Consistent(m)
    ensures Consistent(RegisterAll(m, found))
    decreases |found|
  {
    if |found| > 0 {
      RegisterAllConsistent(Registered(m, PowerUpId(found[0]), found[0]), found[1..]);
    }
  }

  /**
   * A plugin file: the types in it that implement the parser interface, each
   * as the parser it constructs, or `None` when it has no parameterless
   * constructor.
   */
  datatype Assembly = Assembly(parserTypes: seq<Option<Parser>>)

  /** A file `LoadPlugins` gets through: at least one parser type, each constructible. */
  predicate Loadable(a: Assembly) {
    |a.parserTypes| > 0 && forall t :: t in a.parserTypes ==> t.Some?
  }

  /** The parsers constructed from a run of parser types, in order. */
  function Created(types: seq<Option<Parser>>): seq<Parser>
    decreases |types|
  {
    if |types| == 0 then []
    else Created(types[..|types| - 1]) + (match types[|types| - 1] case Some(p) => [p] case None => [])
  }

  /** The parsers constructed from the files, file by file. */
  function Instances(files: seq<Assembly>): seq<Parser>
    decreases |files|
  {
    if |files| == 0 then [] else Instances(files[..|files| - 1]) + Created(files[|files| - 1].parserTypes)
  }

  lemma InstancesStep(files: seq<Assembly>, i: nat)
    requires i < |files|
    ensures Instances(files[..i + 1]) == Instances(files[..i]) + Created(files[i].parserTypes)
  {
    assert files[..i + 1][..i] == files[..i];
  }

  lemma CreatedStep(types: seq<Option<Parser>>, j: nat)
    requires j < |types| && types[j].Some?
    ensures Created(types[..j + 1]) == Created(types[..j]) + [types[j].value]
  {
    assert types[..j + 1][..j] == types[..j];
  }

  /** Registering one more parser at the end is one more `Register`. */
  lemma {:induction false} RegisterAllAppend(m: map<string, Parser>, found: seq<Parser>, p: Parser)
    ensures RegisterAll(m, found + [p]) == Registered(RegisterAll(m, found), PowerUpId(p), p)
    decreases |found|
  {
    if |found| > 0 {
      assert (found + [p])[1..] == found[1..] + [p];
      RegisterAllAppend(Registered(m, PowerUpId(found[0]), found[0]), found[1..], p);
    }
  }

  /** Registering two runs of parsers is registering the first, then the second. */
  lemma {:induction false} RegisterAllConcat(m: map<string, Parser>, a: seq<Parser>, b: seq<Parser>)
    ensures RegisterAll(m, a + b) == RegisterAll(RegisterAll(m, a), b)
    decreases |a|
  {
    if |a| > 0 {
      assert (a + b)[1..] == a[1..] + b;
      RegisterAllConcat(Registered(m, PowerUpId(a[0]), a[0]), a[1..], b);
    } else {
      assert a + b == b;
    }
  }

  class PowerUpPluginLoader {
    var parsers: map<string, Parser>

    /** The table as the read-only view `Parsers` shows it. */
    function Parsers(): map<string, Parser>
      reads this
    {
      parsers
    }

    /** The built-in `ReduceTimeParser` is registered first. */
    constructor ()
      ensures parsers == BuiltIn()
    {
      parsers := map[];
      new;
      Register(PowerUpId(ReduceTimeParser), ReduceTimeParser);
    }

    /**
     * `LoadPlugins` over the plugin files found, in order: each file's parser
     * types are instantiated and registered in order. A file without parser
     * types, or a parser type without a parameterless constructor, throws; the
     * result says whether loading got through.
     */
    method LoadPlugins(files: seq<Assembly>) returns (ok: bool)
      modifies this`parsers
      ensures ok <==> forall i :: 0 <= i < |files| ==> Loadable(files[i])
      ensures ok ==> parsers == RegisterAll(old(parsers), Instances(files))
    {
      for i := 0 to |files|
        invariant forall k :: 0 <= k < i ==> Loadable(files[k])
        invariant parsers == RegisterAll(old(parsers), Instances(files[..i]))
      {
        ok := LoadAssembly(files[i]);
        if !ok {
          return;
        }
        InstancesStep(files, i);
        RegisterAllConcat(old(parsers), Instances(files[..i]), Created(files[i].parserTypes));
      }
      assert files[..|files|] == files;
      return true;
    }

    /** The parser types of one plugin file, instantiated and registered in order. */
    method LoadAssembly(a: Assembly) returns (ok: bool)
      modifies this`parsers
      ensures ok <==> Loadable(a)
      ensures ok ==> parsers == RegisterAll(old(parsers), Created(a.parserTypes))
    {
      var types := a.parserTypes;
      if |types| == 0 {
        return false;
      }
      for j := 0 to |types|
        invariant forall q :: 0 <= q < j ==> types[q].Some?
        invariant parsers == RegisterAll(old(parsers), Created(types[..j]))
      {
        if types[j].None? {
          assert types[j] in a.parserTypes;
          return false;
        }
        CreatedStep(types, j);
        RegisterAllAppend(old(parsers), Created(types[..j]), types[j].value);
        Register(PowerUpId(types[j].value), types[j].value);
      }
      assert types[..|types|] == types;
      return true;
    }

    /** Adds `key` only if it is absent: an existing mapping is never replaced. */
    method Register(key: string, value: Parser)
      modifies this`parsers
      ensures parsers == Registered(old(parsers), key, value)
    {
      if key !in parsers {
        parsers := parsers[key := value];
      }
    }
  }
}
