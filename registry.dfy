/**
 * The tester registry: one numeric tester per identity (one per filesystem
 * for disks), created the first time that identity is seen and kept for
 * the life of the process. Items whose value is undefined are skipped.
 */
module Registry {
  import opened Optional
  import opened Alerts
  import opened NumberTesting

  /** The levels and interval every tester of the registry is created with. */
  datatype RegistryConfig = RegistryConfig(warnLevel: real, dangerLevel: real, minMessageInterval: int)

  datatype RegistryOutcome = RegistryOutcome(states: map<string, NumberState>, alerts: seq<Alert>)

  /** The configuration of the tester kept under `id`: it is named after its identity. */
  function TesterConfig(c: RegistryConfig, id: string): NumberConfig {
    NumberConfig(id, c.warnLevel, c.dangerLevel, c.minMessageInterval)
  }

  /** The state of the tester kept under `id`, or that of a new one if there is none yet. */
  function StateOf(states: map<string, NumberState>, id: string): NumberState {
    if id in states then states[id] else Initial
  }

  /** Tests one value under `id`, starting a fresh tester if the identity is new. */
  function Visit(c: RegistryConfig, states: map<string, NumberState>, id: string, value: real, now: int): (r: RegistryOutcome)
    ensures r.states.Keys == states.Keys + {id}
    ensures forall other | other in states && other != id :: r.states[other] == states[other]
    // the tester under `id` (a new one in its initial state) takes one step with the value
    ensures r.states[id] == NumberStep(TesterConfig(c, id), StateOf(states, id), value, now).state
    ensures r.alerts == NumberStep(TesterConfig(c, id), StateOf(states, id), value, now).alerts
    ensures |r.alerts| <= 1
  {
    var step := NumberStep(TesterConfig(c, id), StateOf(states, id), value, now);
    RegistryOutcome(states[id := step.state], step.alerts)
  }

  /**
   * One call of `test(items)`: the items in order, each either skipped
   * (its value is undefined) or tested under its identity.
   */
  function RegistryRun<T>(c: RegistryConfig, identifier: T -> string, parser: T -> Option<real>,
                                states: map<string, NumberState>, items: seq<T>, now: int): RegistryOutcome
    decreases |items|
  {
    if items == [] then RegistryOutcome(states, [])
    else
      var done := RegistryRun(c, identifier, parser, states, items[..|items| - 1], now);
      var item := items[|items| - 1];
      var value := parser(item);
      if value.None? then done
      else
        var visit := Visit(c, done.states, identifier(item), value.value, now);
        RegistryOutcome(visit.states, done.alerts + visit.alerts)
  }

  /** Running one more item: it is skipped, or it is visited after the ones before it. */
  lemma RunExtend<T>(c: RegistryConfig, identifier: T -> string, parser: T -> Option<real>,
                     states: map<string, NumberState>, items: seq<T>, i: nat, now: int)
    requires i < |items|
    ensures var done := RegistryRun(c, identifier, parser, states, items[..i], now);
      var value := parser(items[i]);
      RegistryRun(c, identifier, parser, states, items[..i + 1], now)
      == if value.None? then done
         else
           var visit := Visit(c, done.states, identifier(items[i]), value.value, now);
           RegistryOutcome(visit.states, done.alerts + visit.alerts)
  {
    assert items[..i + 1][..i] == items[..i];
  }

  /** The identities of the items that are not skipped. */
  function TestedIds<T>(identifier: T -> string, parser: T -> Option<real>, items: seq<T>): set<string>
  {
    set i | 0 <= i < |items| && parser(items[i]).Some? :: identifier(items[i])
  }

  /**
   * The registry grows by exactly the identities of the tested items: every
   * such identity has a tester afterwards and a skipped item adds none.
   */
  lemma {:induction false} RunKeys<T>(c: RegistryConfig, identifier: T -> string, parser: T -> Option<real>,
                                            states: map<string, NumberState>, items: seq<T>, now: int)
    ensures RegistryRun(c, identifier, parser, states, items, now).states.Keys
         == states.Keys + TestedIds(identifier, parser, items)
    decreases |items|
  {
    if items != [] {
      var front := items[..|items| - 1];
      RunKeys(c, identifier, parser, states, front, now);
      var last := |items| - 1;
      if parser(items[last]).Some? {
        assert TestedIds(identifier, parser, items) == TestedIds(identifier, parser, front) + {identifier(items[last])} by {
          forall id | id in TestedIds(identifier, parser, items)
            ensures id in TestedIds(identifier, parser, front) + {identifier(items[last])}
          {
            var i :| 0 <= i < |items| && parser(items[i]).Some? && identifier(items[i]) == id;
            if i < last {
              assert items[i] == front[i];
            }
          }
          forall id | id in TestedIds(identifier, parser, front)
            ensures id in TestedIds(identifier, parser, items)
          {
            var i :| 0 <= i < |front| && parser(front[i]).Some? && identifier(front[i]) == id;
            assert items[i] == front[i];
          }
        }
      } else {
        assert TestedIds(identifier, parser, items) == TestedIds(identifier, parser, front) by {
          forall id | id in TestedIds(identifier, parser, items)
            ensures id in TestedIds(identifier, parser, front)
          {
            var i :| 0 <= i < |items| && parser(items[i]).Some? && identifier(items[i]) == id;
            assert i < last && items[i] == front[i];
          }
          forall id | id in TestedIds(identifier, parser, front)
            ensures id in TestedIds(identifier, parser, items)
          {
            var i :| 0 <= i < |front| && parser(front[i]).Some? && identifier(front[i]) == id;
            assert items[i] == front[i];
          }
        }
      }
    }
  }

  /** A tester whose identity is not among the tested items is left as it was. */
  lemma {:induction false} RunLeavesOthers<T>(c: RegistryConfig, identifier: T -> string, parser: T -> Option<real>,
                                                    states: map<string, NumberState>, items: seq<T>, now: int, id: string)
    requires id in states
    requires forall i | 0 <= i < |items| :: parser(items[i]).Some? ==> identifier(items[i]) != id
    ensures var r := RegistryRun(c, identifier, parser, states, items, now);
      id in r.states && r.states[id] == states[id]
    decreases |items|
  {
    if items != [] {
      RunLeavesOthers(c, identifier, parser, states, items[..|items| - 1], now, id);
    }
  }

  /** The samples the tester under `id` is given: the values of its non-skipped items, in order. */
  function SamplesOf<T>(identifier: T -> string, parser: T -> Option<real>, items: seq<T>, id: string, now: int): seq<Sample>
    decreases |items|
  {
    if items == [] then []
    else
      var last := items[|items| - 1];
      var value := parser(last);
      SamplesOf(identifier, parser, items[..|items| - 1], id, now)
        + if value.Some? && identifier(last) == id then [Sample(value.value, now)] else []
  }

  /**
   * Each identity's tester sees exactly its own values: after a call, the
   * tester under `id` is the one it was before (a new one if there was none)
   * run over the samples of the items carrying `id`.
   */
  lemma {:induction false} RunPerIdentity<T>(c: RegistryConfig, identifier: T -> string, parser: T -> Option<real>,
                                             states: map<string, NumberState>, items: seq<T>, now: int, id: string)
    ensures StateOf(RegistryRun(c, identifier, parser, states, items, now).states, id)
         == NumberRun(TesterConfig(c, id), StateOf(states, id), SamplesOf(identifier, parser, items, id, now)).state
    decreases |items|
  {
    if items != [] {
      var front := items[..|items| - 1];
      var last := items[|items| - 1];
      RunPerIdentity(c, identifier, parser, states, front, now, id);
      var value := parser(last);
      if value.Some? && identifier(last) == id {
        RunSnoc(TesterConfig(c, id), StateOf(states, id), SamplesOf(identifier, parser, front, id, now), Sample(value.value, now));
      } else {
        assert SamplesOf(identifier, parser, items, id, now) == SamplesOf(identifier, parser, front, id, now);
        var done := RegistryRun(c, identifier, parser, states, front, now);
        if value.Some? {
          var visit := Visit(c, done.states, identifier(last), value.value, now);
          assert RegistryRun(c, identifier, parser, states, items, now).states == visit.states;
          assert StateOf(visit.states, id) == StateOf(done.states, id);
        }
      }
    }
  }

  /** A call sends at most one alert per item. */
  lemma {:induction false} RunAlertsBounded<T>(c: RegistryConfig, identifier: T -> string, parser: T -> Option<real>,
                                                     states: map<string, NumberState>, items: seq<T>, now: int)
    ensures |RegistryRun(c, identifier, parser, states, items, now).alerts| <= |items|
    decreases |items|
  {
    if items != [] {
      RunAlertsBounded(c, identifier, parser, states, items[..|items| - 1], now);
    }
  }

  lemma AppendTwo(sent: seq<Alert>, a: seq<Alert>, b: seq<Alert>)
    ensures sent + a + b == sent + (a + b)
  {
  }

  /** The registry object; `testers` is the source's `map` from identity to tester. */
  class StatTesters<T> {
    const warnLevel: real
    const dangerLevel: real
    const minMessageInterval: int
    const identifier: T -> string
    const parser: T -> Option<real>
    var testers: map<string, NumberStatTester>
    /** The testers this registry has created. */
    ghost var Repr: set<NumberStatTester>

    constructor (warnLevel: real, dangerLevel: real, minMessageInterval: int,
                 identifier: T -> string, parser: T -> Option<real>)
      ensures Valid() && testers == map[] && Repr == {}
      ensures Config() == RegistryConfig(warnLevel, dangerLevel, minMessageInterval)
      ensures this.identifier == identifier && this.parser == parser
    {
      this.warnLevel := warnLevel;
      this.dangerLevel := dangerLevel;
      this.minMessageInterval := minMessageInterval;
      this.identifier := identifier;
      this.parser := parser;
      testers := map[];
      Repr := {};
    }

    function Config(): RegistryConfig {
      RegistryConfig(warnLevel, dangerLevel, minMessageInterval)
    }

    /**
     * Each tester is named after its identity and carries the shared levels;
     * as the names differ, no tester is kept under two identities.
     */
    ghost predicate Valid()
      reads this
    {
      && (forall id | id in testers :: testers[id].Config() == TesterConfig(Config(), id))
      && testers.Values == Repr
    }

    /** The state of every tester, by identity. */
    ghost function States(): map<string, NumberState>
      reads this, testers.Values
    {
      map id | id in testers :: testers[id].State()
    }

    /** Tests every item at time `now`, sending alerts through `outbox`. */
    method Test(items: seq<T>, now: int, outbox: Outbox)
      requires Valid()
      modifies this, Repr, outbox
      ensures Valid() && fresh(Repr - old(Repr))
      ensures States() == RegistryRun(Config(), identifier, parser, old(States()), items, now).states
      ensures outbox.sent == old(outbox.sent) + RegistryRun(Config(), identifier, parser, old(States()), items, now).alerts
      // an existing tester is reused, never replaced, and a new identity gets a new tester
      ensures forall id | id in old(testers) :: id in testers && testers[id] == old(testers[id])
      ensures forall id | id in testers && id !in old(testers) :: fresh(testers[id])
    {
      ghost var start := States();
      for i := 0 to |items|
        invariant Valid()
        invariant States() == RegistryRun(Config(), identifier, parser, start, items[..i], now).states
        invariant outbox.sent == old(outbox.sent) + RegistryRun(Config(), identifier, parser, start, items[..i], now).alerts
        invariant fresh(Repr - old(Repr))
        invariant forall id | id in old(testers) :: id in testers && testers[id] == old(testers[id])
        invariant forall id | id in testers && id !in old(testers) :: fresh(testers[id])
      {
        ghost var done := RegistryRun(Config(), identifier, parser, start, items[..i], now);
        RunExtend(Config(), identifier, parser, start, items, i, now);
        var item := items[i];
        var value := parser(item);
        if value.Some? {
          ghost var sent := outbox.sent;
          TestOne(identifier(item), value.value, now, outbox);
          ghost var visit := Visit(Config(), done.states, identifier(item), value.value, now);
          assert outbox.sent == sent + visit.alerts;
          AppendTwo(old(outbox.sent), done.alerts, visit.alerts);
        }
      }
      assert items[..|items|] == items;
    }

    /** The body of the loop for an item that is not skipped: look up or create, then test. */
    method TestOne(id: string, value: real, now: int, outbox: Outbox)
      requires Valid()
      modifies this, Repr, outbox
      ensures Valid() && fresh(Repr - old(Repr))
      ensures States() == Visit(Config(), old(States()), id, value, now).states
      ensures outbox.sent == old(outbox.sent) + Visit(Config(), old(States()), id, value, now).alerts
      ensures id in testers
      ensures forall other | other in old(testers) :: other in testers && testers[other] == old(testers[other])
      ensures id !in old(testers) ==> fresh(testers[id])
    {
      ghost var start := States();
      var tester := Acquire(id);
      tester.Test(value, now, outbox);
      ghost var visit := Visit(Config(), start, id, value, now);
      assert tester.State() == visit.states[id];
      forall other | other in testers
        ensures other in visit.states && testers[other].State() == visit.states[other]
      {
        if other != id {
          assert testers[other].name != tester.name;
        }
      }
      assert States() == visit.states;
    }

    /** The tester kept under `id`, created in its initial state if the identity is new. */
    method Acquire(id: string) returns (tester: NumberStatTester)
      requires Valid()
      modifies this
      ensures Valid() && fresh(Repr - old(Repr))
      ensures id in testers && testers[id] == tester
      ensures tester.State() == StateOf(old(States()), id)
      ensures forall other | other in old(testers) :: other in testers && testers[other] == old(testers[other])
      ensures id !in old(testers) ==> fresh(tester)
      ensures testers.Keys == old(testers.Keys) + {id}
      ensures forall other | other in old(testers) :: testers[other].State() == old(testers[other].State())
    {
      if id in testers {
        tester := testers[id];
      } else {
        tester := new NumberStatTester(id, warnLevel, dangerLevel, minMessageInterval);
        var grown := testers[id := tester];
        forall v | v in grown.Values
          ensures v in testers.Values + {tester}
        {
          var k :| k in grown && grown[k] == v;
          if k != id {
            assert testers[k] == v;
          }
        }
        forall v | v in testers.Values
          ensures v in grown.Values
        {
          var k :| k in testers && testers[k] == v;
          assert grown[k] == v;
        }
        assert grown[id] == tester;
        assert grown.Values == testers.Values + {tester};
        testers := grown;
        Repr := Repr + {tester};
      }
    }
  }
}
