/**
 * The MCP servers hook (src/hooks/use-mcp-servers.ts): the configured
 * servers in component state, written to the `codenova_mcp_servers` entry
 * on every change. `Date.now()` is the parameter `now`.
 */
module UseMcpServers {
  import opened Wrappers
  import opened JsString

  datatype Transport = Stdio | Sse | Http

  datatype Server = Server(
    id: string, name: string, transport: Transport,
    command: Option<string>, args: Option<seq<string>>, env: Option<map<string, string>>,
    url: Option<string>, headers: Option<map<string, string>>, enabled: bool)

  /** A `Partial<MCPServer>`: a present field overwrites. */
  datatype Patch = Patch(
    id: Option<string>, name: Option<string>, transport: Option<Transport>,
    command: Option<string>, args: Option<seq<string>>, env: Option<map<string, string>>,
    url: Option<string>, headers: Option<map<string, string>>, enabled: Option<bool>)

  /** `{ ...s, ...updates }` */
  function Apply(s: Server, p: Patch): (r: Server)
    ensures r.id == p.id.GetOr(s.id) && r.name == p.name.GetOr(s.name)
    ensures r.transport == p.transport.GetOr(s.transport) && r.enabled == p.enabled.GetOr(s.enabled)
    ensures r.command == (if p.command.Some? then p.command else s.command)
    ensures r.args == (if p.args.Some? then p.args else s.args)
    ensures r.env == (if p.env.Some? then p.env else s.env)
    ensures r.url == (if p.url.Some? then p.url else s.url)
    ensures r.headers == (if p.headers.Some? then p.headers else s.headers)
  {
    Server(
      p.id.GetOr(s.id), p.name.GetOr(s.name), p.transport.GetOr(s.transport),
      if p.command.Some? then p.command else s.command,
      if p.args.Some? then p.args else s.args,
      if p.env.Some? then p.env else s.env,
      if p.url.Some? then p.url else s.url,
      if p.headers.Some? then p.headers else s.headers,
      p.enabled.GetOr(s.enabled))
  }

  function IdsOf(l: seq<Server>): set<string> {
    set k | 0 <= k < |l| :: l[k].id
  }

  /** `servers.map(s => s.id === id ? { ...s, ...updates } : s)` */
  function Updated(l: seq<Server>, id: string, p: Patch): (r: seq<Server>)
    ensures |r| == |l|
    ensures forall k :: 0 <= k < |l| && l[k].id != id ==> r[k] == l[k]
    ensures forall k :: 0 <= k < |l| && l[k].id == id ==> r[k] == Apply(l[k], p)
  {
    seq(|l|, k requires 0 <= k < |l| => if l[k].id == id then Apply(l[k], p) else l[k])
  }

  /** Updating twice with the same patch is updating once. */
  lemma UpdatedIdempotent(l: seq<Server>, id: string, p: Patch)
    ensures Updated(Updated(l, id, p), id, p) == Updated(l, id, p)
  {
    var r1 := Updated(l, id, p);
    var r2 := Updated(r1, id, p);
    forall k | 0 <= k < |l|
      ensures r2[k] == r1[k]
    {
      if l[k].id == id && r1[k].id == id {
        assert r1[k] == Apply(l[k], p);
      }
    }
  }

  /** An id no server has leaves the list as it was. */
  lemma UpdatedAbsent(l: seq<Server>, id: string, p: Patch)
    requires id !in IdsOf(l)
    ensures Updated(l, id, p) == l
  {
    var r := Updated(l, id, p);
    forall k | 0 <= k < |l|
      ensures r[k] == l[k]
    {
      assert l[k].id in IdsOf(l);
    }
  }

  /** `servers.filter(s => s.id !== id)` */
  function Without(l: seq<Server>, id: string): (r: seq<Server>)
    ensures forall x :: x in r <==> x in l && x.id != id
    ensures |r| <= |l|
  {
    if |l| == 0 then []
    else (if l[0].id == id then [] else [l[0]]) + Without(l[1..], id)
  }

  /** Deleting a server with an id the list does not have removes nothing. */
  lemma {:induction false} WithoutAbsent(l: seq<Server>, id: string)
    requires id !in IdsOf(l)
    ensures Without(l, id) == l
  {
    if |l| > 0 {
      assert l[0].id in IdsOf(l);
      assert IdsOf(l[1..]) <= IdsOf(l) by {
        forall x | x in IdsOf(l[1..]) ensures x in IdsOf(l) {
          var k :| 0 <= k < |l[1..]| && l[1..][k].id == x;
          assert l[k + 1].id == x;
        }
      }
      WithoutAbsent(l[1..], id);
      assert l == [l[0]] + l[1..];
    }
  }

  /** The filter distributes over concatenation. */
  lemma {:induction false} WithoutAppend(a: seq<Server>, b: seq<Server>, id: string)
    ensures Without(a + b, id) == Without(a, id) + Without(b, id)
  {
    if |a| > 0 {
      assert (a + b)[1..] == a[1..] + b;
      WithoutAppend(a[1..], b, id);
    } else {
      assert a + b == b;
    }
  }

  /** Deleting a server just added under a fresh id gives back the list before it was added. */
  lemma AddThenDelete(l: seq<Server>, s: Server)
    requires s.id !in IdsOf(l)
    ensures Without(l + [s], s.id) == l
  {
    WithoutAppend(l, [s], s.id);
    WithoutAbsent(l, s.id);
    assert Without([s], s.id) == [] by { assert [s][1..] == []; }
  }

  /** `servers.map(s => s.id === id ? { ...s, enabled: !s.enabled } : s)` */
  function Toggled(l: seq<Server>, id: string): (r: seq<Server>)
    ensures |r| == |l|
    ensures forall k :: 0 <= k < |l| ==> r[k].id == l[k].id
    ensures forall k :: 0 <= k < |l| ==> (r[k].enabled != l[k].enabled <==> l[k].id == id)
    ensures forall k :: 0 <= k < |l| ==> r[k].(enabled := l[k].enabled) == l[k]
  {
    seq(|l|, k requires 0 <= k < |l| => if l[k].id == id then l[k].(enabled := !l[k].enabled) else l[k])
  }

  /** Toggling twice restores the list. */
  lemma ToggledTwice(l: seq<Server>, id: string)
    ensures Toggled(Toggled(l, id), id) == l
  {
    var r := Toggled(Toggled(l, id), id);
    forall k | 0 <= k < |l|
      ensures r[k] == l[k]
    {
    }
  }

  /** The hook's state and the entry it writes. */
  class Servers {
    var servers: seq<Server>
    var stored: Option<seq<Server>>

    /** `useState<MCPServer[]>([])`, with whatever the entry already holds. */
    constructor (stored: Option<seq<Server>>)
      ensures servers == [] && this.stored == stored
    {
      servers := [];
      this.stored := stored;
    }

    /** The mount effect: a stored list replaces the state; nothing stored leaves it. */
    method Load()
      modifies this
      ensures stored.Some? ==> servers == stored.value
      ensures stored.None? ==> servers == old(servers)
      ensures stored == old(stored)
    {
      if stored.Some? {
        servers := stored.value;
      }
    }

    /** `saveServers`: the list is written and becomes the state. */
    method Save(l: seq<Server>)
      modifies this
      ensures servers == l && stored == Some(l)
    {
      stored := Some(l);
      servers := l;
    }

    /** `addServer`: the server, with the id made from the clock, goes last and is returned. */
    method Add(server: Server, now: nat) returns (s: Server)
      modifies this
      ensures s == server.(id := NatToString(now))
      ensures servers == old(servers) + [s] && stored == Some(servers)
    {
      s := server.(id := NatToString(now));
      Save(servers + [s]);
    }

    /** `updateServer` */
    method Update(id: string, p: Patch)
      modifies this
      ensures servers == Updated(old(servers), id, p) && stored == Some(servers)
    {
      Save(Updated(servers, id, p));
    }

    /** `deleteServer` */
    method Delete(id: string)
      modifies this
      ensures servers == Without(old(servers), id) && stored == Some(servers)
    {
      Save(Without(servers, id));
    }

    /** `toggleServer` */
    method Toggle(id: string)
      modifies this
      ensures servers == Toggled(old(servers), id) && stored == Some(servers)
    {
      Save(Toggled(servers, id));
    }
  }
}
