/** src/database.cc: the services and service_state tables. A NULL time stamp or PID reads as
    the empty string or 0. */
module Databases {
  import opened Options
  import opened LaunchLine

  /** A row of the service_state table. */
  datatype ServiceState = ServiceState(
    status: string,
    pid: int,
    lastStartedAt: string,
    lastStoppedAt: string,
    executionCount: int)

  const INITIAL_STATE := ServiceState("stopped", 0, "", "", 0)

  type Services = map<string, ServiceRecord>
  type States = map<string, ServiceState>

  /** COALESCE(?, column) with an empty string bound as NULL. */
  function Coalesce(given: string, stored: string): string {
    if given == "" then stored else given
  }

  /** The row after an update: empty time stamps keep what was there. */
  function Updated(row: ServiceState, st: ServiceState): ServiceState {
    st.(lastStartedAt := Coalesce(st.lastStartedAt, row.lastStartedAt),
        lastStoppedAt := Coalesce(st.lastStoppedAt, row.lastStoppedAt))
  }

  /** Byte order of names, as ORDER BY uses it. */
  predicate Before(a: string, b: string) {
    b != "" && (a == "" || a[0] < b[0] || (a[0] == b[0] && Before(a[1..], b[1..])))
  }

  lemma {:induction false} BeforeTotal(a: string, b: string)
    ensures a == b || Before(a, b) || Before(b, a)
  {
    if a != "" && b != "" && a[0] == b[0] {
      BeforeTotal(a[1..], b[1..]);
      assert a == [a[0]] + a[1..] && b == [b[0]] + b[1..];
    }
  }

  lemma {:induction false} BeforeTransitive(a: string, b: string, c: string)
    requires Before(a, b) && Before(b, c)
    ensures Before(a, c)
  {
    if a != "" && a[0] == b[0] == c[0] {
      BeforeTransitive(a[1..], b[1..], c[1..]);
    }
  }

  lemma {:induction false} BeforeIrreflexive(a: string)
    ensures !Before(a, a)
  {
    if a != "" {
      BeforeIrreflexive(a[1..]);
    }
  }

  /** The first place where the two names differ: a has ended there, or has the smaller character. */
  predicate SmallerAt(a: string, b: string, k: nat) {
    && k < |b| && k <= |a| && a[..k] == b[..k]
    && (k == |a| || a[k] < b[k])
  }

  /** The order of names is that of their first difference. */
  lemma BeforeIff(a: string, b: string)
    ensures Before(a, b) <==> exists k: nat :: SmallerAt(a, b, k)
  {
    if Before(a, b) {
      var k := FirstDifference(a, b);
    }
    if k: nat :| SmallerAt(a, b, k) {
      SmallerIsBefore(a, b, k);
    }
  }

  lemma {:induction false} FirstDifference(a: string, b: string) returns (k: nat)
    requires Before(a, b)
    ensures SmallerAt(a, b, k)
  {
    k := 0;
    if a != "" && a[0] == b[0] {
      var j := FirstDifference(a[1..], b[1..]);
      k := j + 1;
      assert a[..k] == [a[0]] + a[1..][..j] && b[..k] == [b[0]] + b[1..][..j];
    }
  }

  lemma {:induction false} SmallerIsBefore(a: string, b: string, k: nat)
    requires SmallerAt(a, b, k)
    ensures Before(a, b)
  {
    if k > 0 {
      assert a[0] == a[..k][0] && b[0] == b[..k][0];
      assert a[1..][..k - 1] == a[..k][1..] && b[1..][..k - 1] == b[..k][1..];
      SmallerIsBefore(a[1..], b[1..], k - 1);
    }
  }

  ghost predicate IsLeast(name: string, names: set<string>) {
    name in names && forall n | n in names && n != name :: Before(name, n)
  }

  predicate Listed(list: seq<ServiceRecord>, name: string) {
    exists k :: 0 <= k < |list| && list[k].name == name
  }

  /** The listed records are the table's rows, each once, by ascending name. */
  ghost predicate Listing(list: seq<ServiceRecord>, services: Services) {
    && (forall k | 0 <= k < |list| :: list[k].name in services && services[list[k].name] == list[k])
    && (forall name | name in services :: Listed(list, name))
    && (forall i, j | 0 <= i < j < |list| :: Before(list[i].name, list[j].name))
  }

  /** The listing so far: the rows that are not `remaining`, in order and before all of these. */
  ghost predicate ListedBut(list: seq<ServiceRecord>, services: Services, remaining: set<string>) {
    && Listing(list, services - remaining)
    && (forall k, name | 0 <= k < |list| && name in remaining :: Before(list[k].name, name))
  }

  lemma ListOneMore(list: seq<ServiceRecord>, services: Services, remaining: set<string>, row: string)
    requires ListedBut(list, services, remaining) && row in services && IsLeast(row, remaining)
    requires forall name | name in services :: services[name].name == name
    ensures ListedBut(list + [services[row]], services, remaining - {row})
  {
    hide Before;
    var longer := list + [services[row]];
    assert longer[|list|].name == row;
    forall name | name in services - (remaining - {row}) ensures Listed(longer, name) {
      if name != row {
        assert name in services - remaining && Listed(list, name);
        var k :| 0 <= k < |list| && list[k].name == name;
        assert longer[k] == list[k];
      }
    }
  }

  /** A listing names no service twice. */
  lemma ListedOnce(list: seq<ServiceRecord>, services: Services, i: nat, j: nat)
    requires Listing(list, services) && i < j < |list|
    ensures list[i].name != list[j].name
  {
    BeforeIrreflexive(list[j].name);
  }

  class Database {
    var services: Services
    var states: States

    constructor ()
      ensures services == map[] && states == map[]
    {
      services, states := map[], map[];
    }

    /** Primary keys, and the foreign key from states to services. */
    ghost predicate Valid()
      reads this
    {
      && (forall name | name in services :: services[name].name == name)
      && states.Keys == services.Keys
    }

    method InsertService(record: ServiceRecord, now: string) returns (ok: bool)
      requires Valid()
      modifies this
      ensures Valid()
      ensures ok == (record.name !in old(services))
      ensures !ok ==> services == old(services) && states == old(states)
      ensures ok ==> services == old(services)[record.name := record.(createdAt := now, updatedAt := now)]
                     && states == old(states)[record.name := INITIAL_STATE]
    {
      if record.name in services {
        return false;
      }
      services := services[record.name := record.(createdAt := now, updatedAt := now)];
      if record.name !in states {
        states := states[record.name := INITIAL_STATE];
      }
      return true;
    }

    /** Deleting the service deletes its state with it. */
    method RemoveService(name: string) returns (ok: bool)
      requires Valid()
      modifies this
      ensures Valid()
      ensures ok == (name in old(services))
      ensures services == old(services) - {name} && states == old(states) - {name}
    {
      ok := name in services;
      services := services - {name};
      states := states - {name};
    }

    method GetService(name: string) returns (record: Option<ServiceRecord>)
      ensures record == if name in services then Some(services[name]) else None
    {
      record := if name in services then Some(services[name]) else None;
    }

    method ListServices() returns (results: seq<ServiceRecord>)
      requires Valid()
      ensures Listing(results, services)
    {
      hide Before;
      results := [];
      var remaining := services.Keys;
      while remaining != {}
        invariant remaining <= services.Keys && ListedBut(results, services, remaining)
        decreases |remaining|
      {
        var row := NextRow(remaining);
        ListOneMore(results, services, remaining, row);
        results := results + [services[row]];
        remaining := remaining - {row};
      }
    }

    /** The cursor's next row in name order. */
    method NextRow(remaining: set<string>) returns (row: string)
      requires remaining != {}
      ensures IsLeast(row, remaining)
    {
      var candidates := remaining;
      row :| row in candidates;
      candidates := candidates - {row};
      while candidates != {}
        invariant row in remaining && candidates <= remaining
        invariant forall n | n in remaining - candidates && n != row :: Before(row, n)
        decreases |candidates|
      {
        var other :| other in candidates;
        BeforeTotal(other, row);
        if Before(other, row) {
          forall n | n in remaining - candidates && n != row ensures Before(other, n) {
            BeforeTransitive(other, row, n);
          }
          row := other;
        }
        candidates := candidates - {other};
      }
    }

    method UpdateState(name: string, st: ServiceState)
      requires Valid()
      modifies this`states
      ensures Valid()
      ensures states == if name in old(states) then old(states)[name := Updated(old(states)[name], st)] else old(states)
      ensures name in states ==>
                && states[name].status == st.status && states[name].pid == st.pid
                && states[name].executionCount == st.executionCount
                && states[name].lastStartedAt
                   == (if st.lastStartedAt != "" then st.lastStartedAt else old(states)[name].lastStartedAt)
                && states[name].lastStoppedAt
                   == (if st.lastStoppedAt != "" then st.lastStoppedAt else old(states)[name].lastStoppedAt)
    {
      if name in states {
        states := states[name := Updated(states[name], st)];
      }
    }

    method GetState(name: string) returns (st: Option<ServiceState>)
      ensures st == if name in states then Some(states[name]) else None
    {
      st := if name in states then Some(states[name]) else None;
    }
  }
}
