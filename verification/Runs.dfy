/** Building runs: what a faulty replica sends, and what a correct one makes of a list of events. */
module Runs {
  import opened Types
  import opened ReplicaState
  import opened Handlers
  import opened Cluster

  /** The state of a replica after these events, all at time 0. */
  ghost function Lives(c: Config, s: State, es: seq<Event>): State {
    if es == [] then s else Step(c, Lives(c, s, es[..|es| - 1]), 0, es[|es| - 1])
  }

  lemma {:induction false} LivesOn(c: Config, s: State, es: seq<Event>, more: seq<Event>)
    ensures Lives(c, s, es + more) == Lives(c, Lives(c, s, es), more)
  {
    hide Step;
    if more == [] {
      assert es + more == es;
    } else {
      var rest := more[..|more| - 1];
      LivesOn(c, s, es, rest);
      assert es + more == es + rest + [more[|more| - 1]];
      assert (es + more)[..|es + more| - 1] == es + rest;
    }
  }

  lemma Extends(u: Setup, tr: seq<Sys>, y: Sys)
    requires Run(u, tr) && Next(u, tr[|tr| - 1], y)
    ensures Run(u, tr + [y])
  {
    hide Next;
  }

  lemma Started(u: Setup) returns (tr: seq<Sys>)
    ensures Run(u, tr) && |tr| > 0 && tr[|tr| - 1].nodes == map i | i in u.replicas :: Init(u.replicas[i])
  {
    tr := [Sys(map i | i in u.replicas :: Init(u.replicas[i]), {})];
  }

  /** Faulty replicas send these messages. */
  lemma {:induction false} Sent(u: Setup, was: seq<Sys>, ms: set<Msg>) returns (tr: seq<Sys>)
    requires Run(u, was)
    requires forall m | m in ms :: m.Sender() in u.faulty && MsgSound(u, was[|was| - 1].nodes, m)
    ensures Run(u, tr) && |tr| > 0 && tr[|tr| - 1] == was[|was| - 1].(net := was[|was| - 1].net + ms)
  {
    hide Run, MsgSound;
    SomeStates(u, was);
    tr := was;
    if ms == {} {
      assert was[|was| - 1].net + ms == was[|was| - 1].net;
    } else {
      var m :| m in ms;
      tr := Sent(u, was, ms - {m});
      var x := tr[|tr| - 1];
      assert Injects(u, x, x.(net := x.net + {m}), m);
      Extends(u, tr, x.(net := x.net + {m}));
      tr := tr + [x.(net := x.net + {m})];
      assert was[|was| - 1].net + ms == was[|was| - 1].net + (ms - {m}) + {m};
    }
  }

  lemma SomeStates(u: Setup, tr: seq<Sys>)
    requires Run(u, tr)
    ensures |tr| > 0
  {
    hide Next;
  }

  /** Correct replica i lives through these events. */
  lemma {:induction false} Lived(u: Setup, was: seq<Sys>, i: nat, es: seq<Event>) returns (tr: seq<Sys>)
    requires Run(u, was) && i in u.replicas && i in was[|was| - 1].nodes
    requires forall e | e in es && e.Deliver? :: e.m in was[|was| - 1].net
    ensures Run(u, tr) && |tr| > 0 && was[|was| - 1].net <= tr[|tr| - 1].net
    ensures var x := was[|was| - 1];
            tr[|tr| - 1].nodes == x.nodes[i := Lives(u.replicas[i], x.nodes[i], es)]
  {
    hide Run, Step;
    SomeStates(u, was);
    tr := was;
    if es != [] {
      var rest, e := es[..|es| - 1], es[|es| - 1];
      assert es == rest + [e];
      tr := Lived(u, was, i, rest);
      var x := tr[|tr| - 1];
      var t := Step(u.replicas[i], x.nodes[i], 0, e);
      var y := Sys(x.nodes[i := t], x.net + (set m | m in t.outbox));
      assert Acts(u, x, y, i, 0, e);
      Extends(u, tr, y);
      tr := tr + [y];
    } else {
      assert was[|was| - 1].nodes == was[|was| - 1].nodes[i := was[|was| - 1].nodes[i]];
    }
  }
}
