/** What `jin`, `adopt` and `rot` do: code entered with other bindings than its own, and the stack
    operation the compiler does not use. */
module Bindings {
  import opened Machine
  import opened Exceptions

  /** `jin` goes on at the address of the closure in the bindings of the current record, and takes
      the handler of the closure's record. */
  lemma JinGoesOn(next: int, s: State, e: nat, k: Stack) returns (u: State)
    requires s.Ok() && Descending(s.envs) && s.stack == On(Closure(e), k) && e < |s.envs| && e != s.cur
    ensures Exec(Plain(Jin), next, s) == Next(u) && u.Ok() && u.stack == k && u.tables == s.tables
    ensures u.Ip() == s.envs[e].ip && u.envs[u.cur].table == s.envs[s.cur].table
    ensures forall x :: Lookup(u.envs, u.tables, u.cur, x) == Lookup(s.envs, s.tables, s.cur, x)
    ensures u.envs[u.cur].handler == s.envs[e].handler && u.envs[u.cur].handlerAddr == s.envs[e].handlerAddr
  {
    var target := s.envs[e].(table := s.envs[s.cur].table, parent := s.envs[s.cur].parent);
    u := Enter(SetIp(s, next).(stack := k), target);
    assert Exec(Plain(Jin), next, s) == Next(u);
    assert u.envs == SetIp(s, next).envs + [target];
    hide Exec, Lookup;
    forall x ensures Lookup(u.envs, u.tables, u.cur, x) == Lookup(s.envs, s.tables, s.cur, x) {
      LookupCopy(s.envs, u.envs, s.tables, s.cur, x);
    }
  }

  /** `adopt` makes a closure of the child's code that sees what the parent's record sees. */
  lemma AdoptSees(next: int, s: State, parent: nat, child: nat, k: Stack) returns (u: State)
    requires s.Ok() && Descending(s.envs) && s.stack == On(Closure(parent), On(Closure(child), k))
    requires parent < |s.envs| && child < |s.envs| && parent != s.cur && child != s.cur
    ensures Exec(Plain(Adopt), next, s) == Next(u) && u.Ok() && u.cur == s.cur && u.tables == s.tables
    ensures u.stack == On(Closure(|s.envs|), k) && |u.envs| == |s.envs| + 1
    ensures u.envs[|s.envs|].ip == s.envs[child].ip && u.envs[|s.envs|].table == s.envs[parent].table
    ensures forall x :: Lookup(u.envs, u.tables, |s.envs|, x) == Lookup(s.envs, s.tables, parent, x)
    ensures forall i :: 0 <= i < |s.envs| && i != s.cur ==> u.envs[i] == s.envs[i]
  {
    var adopted := s.envs[child].(table := s.envs[parent].table, parent := s.envs[parent].parent);
    var envs := SetIp(s, next).envs + [adopted];
    u := SetIp(s, next).(stack := On(Closure(|s.envs|), k), envs := envs);
    assert Exec(Plain(Adopt), next, s) == Next(u);
    hide Exec, Lookup;
    forall x ensures Lookup(u.envs, u.tables, |s.envs|, x) == Lookup(s.envs, s.tables, parent, x) {
      LookupCopy(s.envs, u.envs, s.tables, parent, x);
    }
  }

  /** `rot` moves the top below the next two values, and three of them change nothing. */
  lemma RotCycles(next: int, s: State, a: Value, b: Value, c: Value, k: Stack) returns (t: State, u: State, v: State)
    requires s.Ok() && s.stack == On(a, On(b, On(c, k)))
    ensures Exec(Plain(Rot), next, s) == Next(t) && t.stack.On? && t.stack.top == b && t.Ok()
    ensures Exec(Plain(Rot), next, t) == Next(u) && u.stack.On? && u.stack.top == c && u.Ok()
    ensures Exec(Plain(Rot), next, u) == Next(v) && v.stack == s.stack
  {
    t := SetIp(s, next).(stack := On(b, On(c, On(a, k))));
    u := SetIp(t, next).(stack := On(c, On(a, On(b, k))));
    v := SetIp(u, next).(stack := s.stack);
  }

  /** A new record that shares table and parent finds the same. */
  lemma LookupCopy(envs: seq<Env>, envs': seq<Env>, tables: seq<Table>, e: nat, x: string)
    requires Descending(envs) && e < |envs| && |envs'| == |envs| + 1
    requires forall i :: 0 <= i < |envs| ==> envs'[i].table == envs[i].table && envs'[i].parent == envs[i].parent
    requires envs'[|envs|].table == envs[e].table && envs'[|envs|].parent == envs[e].parent
    ensures Lookup(envs', tables, |envs|, x) == Lookup(envs, tables, e, x)
  {
    if envs[e].parent.Some? { LookupMore(envs, envs', tables, envs[e].parent.value, x); }
  }

  lemma {:induction false} LookupMore(envs: seq<Env>, envs': seq<Env>, tables: seq<Table>, e: nat, x: string)
    requires Descending(envs) && e < |envs| <= |envs'|
    requires forall i :: 0 <= i < |envs| ==> envs'[i].table == envs[i].table && envs'[i].parent == envs[i].parent
    ensures Lookup(envs', tables, e, x) == Lookup(envs, tables, e, x)
    decreases e
  {
    if envs[e].parent.Some? { LookupMore(envs, envs', tables, envs[e].parent.value, x); }
  }
}
