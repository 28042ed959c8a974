/**
 * The connection registry of package `broadcast`: the set of live websocket
 * connections behind a reader/writer lock.
 *
 * A connection is an identifier; closing its transport is recorded in
 * `closed`.  The lock is the number of read locks held: between calls no write
 * lock is ever held, and a call that would wait for the write lock reports
 * that it is blocked instead of waiting.
 */
module Registry {

  type ConnId = nat

  /** Outcome of `Delete`: blocked on the lock, or removed and closed. */
  datatype Removal = Blocked | Removed(closeFailed: bool)

  predicate Distinct(s: seq<ConnId>)
  {
    forall i, j | 0 <= i < j < |s| :: s[i] != s[j]
  }

  class Connections {
    var members: set<ConnId>
    var closed: set<ConnId>  // connections whose transport has been closed
    var readers: nat         // read locks currently held

    /** `NewConnections`: an empty registry with its lock free. */
    constructor ()
      ensures members == {} && closed == {} && readers == 0
    {
      members, closed, readers := {}, {}, 0;
    }

    /** `IsEmpty`: takes and releases a read lock, so the lock state is unchanged. */
    method IsEmpty() returns (empty: bool)
      ensures empty <==> members == {}
    {
      empty := |members| == 0;
    }

    /** `Add`: the write lock waits for every read lock to be released. */
    method Add(ws: ConnId) returns (added: bool)
      modifies this`members
      ensures added <==> readers == 0
      ensures members == if added then old(members) + {ws} else old(members)
    {
      if readers > 0 {
        return false;
      }
      members := members + {ws};
      added := true;
    }

    /** `ws.Close()`: closing a transport twice fails the second time. */
    method CloseConn(ws: ConnId) returns (closeFailed: bool)
      modifies this`closed
      ensures closed == old(closed) + {ws}
      ensures closeFailed <==> ws in old(closed)
    {
      closeFailed := ws in closed;
      closed := closed + {ws};
    }

    /** `Delete`: remove under the write lock, then close, member or not. */
    method Delete(ws: ConnId) returns (r: Removal)
      modifies this`members, this`closed
      ensures r.Blocked? <==> readers > 0
      ensures r.Blocked? ==> members == old(members) && closed == old(closed)
      ensures r.Removed? ==>
                && members == old(members) - {ws}
                && closed == old(closed) + {ws}
                && (r.closeFailed <==> ws in old(closed))
    {
      if readers > 0 {
        return Blocked;
      }
      members := members - {ws};
      var failed := CloseConn(ws);
      r := Removed(failed);
    }

    /** `Close`: close every member, in any order; membership is kept. */
    method Close()
      modifies this`closed
      ensures closed == old(closed) + members
    {
      var rest := members;
      while rest != {}
        invariant rest <= members
        invariant closed == old(closed) + (members - rest)
        decreases |rest|
      {
        var ws :| ws in rest;
        var _ := CloseConn(ws);
        rest := rest - {ws};
      }
    }

    /**
     * `Iter` as written: visit members in any order under a read lock; when
     * `visit` returns false, return at once, with the read lock still held.
     */
    method IterAsWritten(visit: ConnId -> bool) returns (visited: seq<ConnId>, stopped: bool)
      modifies this`readers
      ensures readers == if stopped then old(readers) + 1 else old(readers)
      ensures Distinct(visited)
      ensures forall i | 0 <= i < |visited| :: visited[i] in members
      ensures forall i | 0 <= i < |visited| :: visit(visited[i]) <==> !(stopped && i == |visited| - 1)
      ensures stopped ==> visited != []
      ensures (forall ws :: visit(ws)) ==> !stopped
      ensures !stopped ==> forall ws :: ws in members ==> ws in visited
    {
      readers := readers + 1;
      var rest := members;
      visited, stopped := [], false;
      while rest != {}
        invariant rest <= members
        invariant Distinct(visited)
        invariant forall i | 0 <= i < |visited| :: visited[i] in members && visited[i] !in rest
        invariant forall ws :: ws in members ==> ws in rest || ws in visited
        invariant forall i | 0 <= i < |visited| :: visit(visited[i])
        decreases |rest|
      {
        var ws :| ws in rest;
        visited := visited + [ws];
        rest := rest - {ws};
        if !visit(ws) {
          return visited, true;
        }
      }
      readers := readers - 1;
    }

    /** `Iter` with the read lock released on both exits. */
    method Iter(visit: ConnId -> bool) returns (visited: seq<ConnId>, stopped: bool)
      modifies this`readers
      ensures readers == old(readers)
      ensures Distinct(visited)
      ensures forall i | 0 <= i < |visited| :: visited[i] in members
      ensures forall i | 0 <= i < |visited| :: visit(visited[i]) <==> !(stopped && i == |visited| - 1)
      ensures stopped ==> visited != []
      ensures (forall ws :: visit(ws)) ==> !stopped
      ensures !stopped ==> forall ws :: ws in members ==> ws in visited
    {
      readers := readers + 1;
      var rest := members;
      visited, stopped := [], false;
      while rest != {}
        invariant readers == old(readers) + 1
        invariant rest <= members
        invariant Distinct(visited)
        invariant forall i | 0 <= i < |visited| :: visited[i] in members && visited[i] !in rest
        invariant forall ws :: ws in members ==> ws in rest || ws in visited
        invariant forall i | 0 <= i < |visited| :: visit(visited[i])
        decreases |rest|
      {
        var ws :| ws in rest;
        visited := visited + [ws];
        rest := rest - {ws};
        if !visit(ws) {
          readers := readers - 1;
          return visited, true;
        }
      }
      readers := readers - 1;
    }
  }

  /**
   * With `Iter` as written, a visitor that stops early leaves a read lock held,
   * so every later `Add` waits for ever.
   */
  method LeakedReadLockBlocksWriters() returns (added: bool)
    ensures !added
  {
    var c := new Connections();
    var first := c.Add(1);
    var visited, stopped := c.IterAsWritten(ws => false);
    added := c.Add(2);
  }

  /** With the read lock released on early stop, a later `Add` goes through. */
  method ReleasedReadLockAdmitsWriters() returns (added: bool)
    ensures added
  {
    var c := new Connections();
    var first := c.Add(1);
    var visited, stopped := c.Iter(ws => false);
    added := c.Add(2);
  }
}
