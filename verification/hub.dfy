/** The WebSocket hub: which clients a room holds, and what sending to it does. */
module Hubs {
  type Data = seq<int>

  const SEND_BUFFER: nat := 64

  class Client {
    var buffer: seq<Data>

    constructor ()
      ensures buffer == []
    {
      buffer := [];
    }
  }

  // ---------------------------------------------------------------------------------
  // The contents of a room
  // ---------------------------------------------------------------------------------

  /** The list without the first occurrence of x. */
  function Without<T(==)>(s: seq<T>, x: T): seq<T> {
    if s == [] then [] else if s[0] == x then s[1..] else [s[0]] + Without(s[1..], x)
  }

  lemma {:induction false} WithoutFirst<T>(s: seq<T>, x: T, i: nat)
    requires i < |s| && s[i] == x && x !in s[..i]
    ensures Without(s, x) == s[..i] + s[i + 1..]
  {
    if i > 0 {
      assert s[..i][0] == s[0] && x !in s[1..][..i - 1] by {
        assert s[1..][..i - 1] == s[..i][1..];
      }
      WithoutFirst(s[1..], x, i - 1);
    }
  }

  lemma {:induction false} WithoutAbsent<T>(s: seq<T>, x: T)
    requires x !in s
    ensures Without(s, x) == s
  {
    if s != [] {
      WithoutAbsent(s[1..], x);
    }
  }

  function Count<T(==)>(s: seq<T>, x: T): (n: nat)
    ensures n == 0 <==> x !in s
  {
    if s == [] then 0 else Count(s[..|s| - 1], x) + if s[|s| - 1] == x then 1 else 0
  }

  lemma {:induction false} CountConcat<T>(s: seq<T>, r: seq<T>, x: T)
    ensures Count(s + r, x) == Count(s, x) + Count(r, x)
  {
    if r == [] {
      assert s + r == s;
    } else {
      CountConcat(s, r[..|r| - 1], x);
      assert (s + r)[..|s + r| - 1] == s + r[..|r| - 1];
    }
  }

  lemma {:induction false} CountWithout<T>(s: seq<T>, x: T, y: T)
    ensures Count(Without(s, x), y) == if x == y && Count(s, y) > 0 then Count(s, y) - 1 else Count(s, y)
  {
    if s != [] {
      assert s == [s[0]] + s[1..];
      CountConcat([s[0]], s[1..], y);
      if s[0] != x {
        CountWithout(s[1..], x, y);
        CountConcat([s[0]], Without(s[1..], x), y);
      }
    }
  }

  /** What a client's buffer becomes when n copies of a message are offered: the ones past
      the bound are dropped. */
  function Offered(buffer: seq<Data>, data: Data, n: nat): (r: seq<Data>) {
    if n == 0 then buffer
    else
      var before := Offered(buffer, data, n - 1);
      if |before| < SEND_BUFFER then before + [data] else before
  }

  function OfferedOnce(buffer: seq<Data>, data: Data, offered: bool): seq<Data> {
    if offered && |buffer| < SEND_BUFFER then buffer + [data] else buffer
  }

  lemma OfferedNone<T>(buffer: seq<Data>, data: Data, members: seq<T>, c: T)
    ensures Offered(buffer, data, Count(members[..0], c)) == buffer
  {
  }

  lemma OfferedNext<T>(buffer: seq<Data>, data: Data, members: seq<T>, i: nat, c: T)
    requires i < |members|
    ensures Offered(buffer, data, Count(members[..i + 1], c))
      == OfferedOnce(Offered(buffer, data, Count(members[..i], c)), data, members[i] == c)
  {
    assert members[..i + 1][..i] == members[..i];
  }

  /** Offering never overfills a buffer, keeps what was there, and fits as many copies as
      there is room for. */
  lemma {:induction false} OfferedExact(buffer: seq<Data>, data: Data, n: nat)
    requires |buffer| <= 64
    ensures var free := 64 - |buffer|;
      Offered(buffer, data, n) == buffer + seq(if n < free then n else free, _ => data)
  {
    if n > 0 {
      OfferedExact(buffer, data, n - 1);
    }
  }

  // ---------------------------------------------------------------------------------
  // The hub
  // ---------------------------------------------------------------------------------

  /** A slice: its backing array and how much of it is in use. */
  datatype Slice = Slice(data: array<Client>, len: nat)

  datatype Op = Register(room: string, client: Client) | Unregister(room: string, client: Client)

  class Hub {
    var clients: map<string, Slice>

    /** Every listed room has a client, and no two rooms share a backing array. */
    ghost predicate Valid()
      reads this
    {
      && (forall r :: r in clients ==> 0 < clients[r].len <= clients[r].data.Length)
      && (forall r, q :: r in clients && q in clients && r != q ==> clients[r].data != clients[q].data)
    }

    ghost function Arrays(): set<array<Client>>
      reads this
    {
      set r | r in clients :: clients[r].data
    }

    /** The clients of a room, in order. */
    ghost function Members(room: string): (s: seq<Client>)
      requires Valid()
      reads this, Arrays()
    {
      if room in clients then clients[room].data[..clients[room].len] else []
    }

    constructor ()
      ensures Valid() && clients == map[] && Arrays() == {}
      ensures forall room :: Members(room) == []
    {
      clients := map[];
    }

    /** A room's slice gets one more client, in a larger array when it is full. */
    method Append(s: Slice, client: Client) returns (r: Slice)
      requires s.len <= s.data.Length
      modifies s.data
      ensures r.len == s.len + 1 <= r.data.Length && (if s.len < s.data.Length then r.data == s.data else fresh(r.data))
      ensures r.data[..r.len] == old(s.data[..s.len]) + [client]
    {
      if s.len < s.data.Length {
        s.data[s.len] := client;
        return Slice(s.data, s.len + 1);
      }
      var larger := new Client[2 * s.len + 1](_ => client);
      for i := 0 to s.len
        invariant forall j :: 0 <= j < i ==> larger[j] == s.data[j]
        invariant larger[s.len] == client
        invariant unchanged(s.data)
      {
        larger[i] := s.data[i];
      }
      return Slice(larger, s.len + 1);
    }

    method Register(room: string, client: Client)
      requires Valid()
      modifies this, Arrays()
      ensures Valid() && fresh(Arrays() - old(Arrays()))
      ensures Members(room) == old(Members(room)) + [client]
      ensures forall other :: other != room ==> Members(other) == old(Members(other))
    {
      ghost var before := clients;
      var slice: Slice;
      if room in clients {
        slice := Append(clients[room], client);
      } else {
        var data := new Client[1](_ => client);
        slice := Slice(data, 1);
      }
      clients := clients[room := slice];
      forall other | other != room
        ensures Members(other) == old(Members(other))
      {
        if other in before { assert clients[other] == before[other]; }
      }
    }

    /** Removes the first occurrence in place, keeping the order of the rest. */
    method Remove(s: Slice, i: nat) returns (r: Slice)
      requires i < s.len <= s.data.Length
      modifies s.data
      ensures r == Slice(s.data, s.len - 1)
      ensures r.data[..r.len] == old(s.data[..i]) + old(s.data[i + 1..s.len])
    {
      for j := i to s.len - 1
        invariant forall k :: 0 <= k < i ==> s.data[k] == old(s.data[k])
        invariant forall k :: i <= k < j ==> s.data[k] == old(s.data[k + 1])
        invariant forall k :: j <= k < s.len ==> s.data[k] == old(s.data[k])
      {
        s.data[j] := s.data[j + 1];
      }
      return Slice(s.data, s.len - 1);
    }

    /** The first position of a client, or the length. */
    method Find(s: Slice, client: Client) returns (i: nat)
      requires s.len <= s.data.Length
      ensures i <= s.len && client !in s.data[..i] && (i < s.len ==> s.data[i] == client)
    {
      i := 0;
      while i < s.len && s.data[i] != client
        invariant i <= s.len && client !in s.data[..i]
      {
        i := i + 1;
      }
    }

    /** The slice without its first occurrence of a client. */
    method RemoveFirst(s: Slice, client: Client) returns (r: Slice)
      requires s.len <= s.data.Length
      modifies s.data
      ensures r.data == s.data && r.len <= s.len
      ensures r.data[..r.len] == Without<Client>(old(s.data[..s.len]), client)
    {
      hide Without, Count;
      ghost var members := s.data[..s.len];
      var i := Find(s, client);
      assert members[..i] == s.data[..i] && members[i..] == s.data[i..s.len];
      if i == s.len {
        WithoutAbsent(members, client);
        return s;
      }
      WithoutFirst(members, client, i);
      assert members[i + 1..] == s.data[i + 1..s.len];
      r := Remove(s, i);
    }

    method Unregister(room: string, client: Client)
      requires Valid()
      modifies this, Arrays()
      ensures Valid() && Arrays() <= old(Arrays())
      ensures Members(room) == Without<Client>(old(Members(room)), client)
      ensures forall other :: other != room ==> Members(other) == old(Members(other))
      ensures room in clients <==> Without<Client>(old(Members(room)), client) != []
    {
      if room !in clients {
        return;
      }
      var slice := RemoveFirst(clients[room], client);
      clients := clients[room := slice];
      if slice.len == 0 {
        clients := clients - {room};
      }
    }

    /** Every occurrence of a client in the slice takes the message if there is space. */
    method Offer(s: Slice, data: Data)
      requires s.len <= s.data.Length && forall c :: c in s.data[..s.len] ==> |c.buffer| <= SEND_BUFFER
      modifies set c | c in s.data[..s.len]
      ensures forall c :: c in s.data[..s.len] ==>
        c.buffer == Offered(old(c.buffer), data, Count<Client>(s.data[..s.len], c)) && |c.buffer| <= SEND_BUFFER
    {
      hide Offered, Count;
      ghost var members := s.data[..s.len];
      forall c | c in members ensures Offered(c.buffer, data, Count<Client>(members[..0], c)) == c.buffer {
        OfferedNone<Client>(c.buffer, data, members, c);
      }
      for i := 0 to s.len
        invariant forall c :: c in members ==>
          c.buffer == Offered(old(c.buffer), data, Count<Client>(members[..i], c)) && |c.buffer| <= SEND_BUFFER
      {
        var client := s.data[i];
        forall c | c in members
          ensures Offered(old(c.buffer), data, Count<Client>(members[..i + 1], c))
            == OfferedOnce(Offered(old(c.buffer), data, Count<Client>(members[..i], c)), data, members[i] == c)
        {
          OfferedNext<Client>(old(c.buffer), data, members, i, c);
        }
        if |client.buffer| < SEND_BUFFER {
          client.buffer := client.buffer + [data];
        }
      }
      assert members[..s.len] == members;
    }

    /** Each registration in the room takes the message if its client has space; nobody
        else's buffer changes, and none goes past its bound. */
    method Send(room: string, data: Data)
      requires Valid() && forall c :: c in Members(room) ==> |c.buffer| <= SEND_BUFFER
      modifies set c | c in Members(room)
      ensures forall c :: c in Members(room) ==>
        c.buffer == Offered(old(c.buffer), data, Count<Client>(Members(room), c)) && |c.buffer| <= SEND_BUFFER
    {
      if room in clients {
        Offer(clients[room], data);
      }
    }

    /** After any sequence of registrations and removals every room is what that room's own
        operations make of it, and only rooms with a client are listed. */
    method Replay(ops: seq<Op>)
      requires Valid() && clients == map[]
      modifies this, Arrays()
      ensures Valid() && forall room :: Members(room) == RoomAfter(ops, room)
      ensures forall room :: room in clients <==> RoomAfter(ops, room) != []
    {
      for i := 0 to |ops|
        invariant Valid() && fresh(Arrays() - old(Arrays()))
        invariant forall room :: Members(room) == RoomAfter(ops[..i], room)
      {
        assert ops[..i + 1][..i] == ops[..i];
        match ops[i] {
          case Register(room, client) => Register(room, client);
          case Unregister(room, client) => Unregister(room, client);
        }
      }
      assert ops[..|ops|] == ops;
    }
  }

  // ---------------------------------------------------------------------------------
  // Histories
  // ---------------------------------------------------------------------------------

  /** The list a history leaves in a room. */
  ghost function RoomAfter(ops: seq<Op>, room: string): seq<Client> {
    if ops == [] then []
    else
      var before, op := RoomAfter(ops[..|ops| - 1], room), ops[|ops| - 1];
      if op.room != room then before
      else if op.Register? then before + [op.client]
      else Without<Client>(before, op.client)
  }

  /** How often a client should be in a room: once per registration not yet taken back. */
  ghost function Balance(ops: seq<Op>, room: string, client: Client): nat {
    if ops == [] then 0
    else
      var before, op := Balance(ops[..|ops| - 1], room, client), ops[|ops| - 1];
      if op.room != room || op.client != client then before
      else if op.Register? then before + 1
      else if before == 0 then 0 else before - 1
  }

  /** Other clients and other rooms never change how often a client is listed. */
  lemma {:induction false} ListedAsRegistered(ops: seq<Op>, room: string, client: Client)
    ensures Count<Client>(RoomAfter(ops, room), client) == Balance(ops, room, client)
  {
    if ops != [] {
      var before, op := ops[..|ops| - 1], ops[|ops| - 1];
      ListedAsRegistered(before, room, client);
      if op.room == room {
        if op.Register? {
          CountConcat(RoomAfter(before, room), [op.client], client);
        } else {
          CountWithout(RoomAfter(before, room), op.client, client);
        }
      }
    }
  }

  /** The registrations of a room, in order. */
  ghost function Registrations(ops: seq<Op>, room: string): seq<Client> {
    if ops == [] then []
    else
      var before, op := Registrations(ops[..|ops| - 1], room), ops[|ops| - 1];
      if op.room == room && op.Register? then before + [op.client] else before
  }

  /** r is s with some elements left out. */
  ghost predicate Subsequence<T>(r: seq<T>, s: seq<T>) {
    if r == [] then true
    else if s == [] then false
    else if r[|r| - 1] == s[|s| - 1] && Subsequence(r[..|r| - 1], s[..|s| - 1]) then true
    else Subsequence(r, s[..|s| - 1])
  }

  lemma {:induction false} SubsequenceSelf<T>(s: seq<T>)
    ensures Subsequence(s, s)
  {
    if s != [] {
      SubsequenceSelf(s[..|s| - 1]);
    }
  }

  lemma {:induction false} SubsequenceDrops<T>(r: seq<T>, s: seq<T>, i: nat)
    requires Subsequence(r, s) && i < |r|
    ensures Subsequence(r[..i] + r[i + 1..], s)
    decreases |s|
  {
    var n, m := |r| - 1, |s| - 1;
    var shorter := r[..i] + r[i + 1..];
    if r[n] == s[m] && Subsequence(r[..n], s[..m]) {
      if i == n {
        assert shorter == r[..n];
        SubsequenceWeakens(r[..n], s);
      } else {
        SubsequenceDrops(r[..n], s[..m], i);
        assert shorter[..|shorter| - 1] == r[..n][..i] + r[..n][i + 1..];
      }
    } else {
      SubsequenceDrops(r, s[..m], i);
    }
  }

  lemma SubsequenceWeakens<T>(r: seq<T>, s: seq<T>)
    requires s != [] && Subsequence(r, s[..|s| - 1])
    ensures Subsequence(r, s)
  {
  }

  /** The order of registration is kept: a room's list is its registrations with some left
      out, never reordered. */
  lemma {:induction false} OrderIsKept(ops: seq<Op>, room: string)
    ensures Subsequence(RoomAfter(ops, room), Registrations(ops, room))
  {
    hide Subsequence;
    if ops == [] {
      SubsequenceSelf(RoomAfter(ops, room));
    } else {
      var before, op := ops[..|ops| - 1], ops[|ops| - 1];
      var list := RoomAfter(before, room);
      OrderIsKept(before, room);
      if op.room == room && op.Register? {
        SubsequenceExtends(list, Registrations(before, room), op.client);
      } else if op.room == room && op.client in list {
        var i := FirstAt(list, op.client);
        WithoutFirst(list, op.client, i);
        SubsequenceDrops(list, Registrations(before, room), i);
      } else if op.room == room {
        WithoutAbsent(list, op.client);
      }
    }
  }

  lemma SubsequenceExtends<T>(r: seq<T>, s: seq<T>, x: T)
    requires Subsequence(r, s)
    ensures Subsequence(r + [x], s + [x])
  {
    assert (r + [x])[..|r|] == r && (s + [x])[..|s|] == s;
  }

  ghost function FirstAt<T>(s: seq<T>, x: T): (i: nat)
    requires x in s
    ensures i < |s| && s[i] == x && x !in s[..i]
  {
    if s[0] == x then 0
    else
      var i := 1 + FirstAt(s[1..], x);
      assert s[..i] == [s[0]] + s[1..][..i - 1];
      i
  }
}
