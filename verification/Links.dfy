/** What the broker can observe of the writing side of one connection. */
module Links {
  import opened Bytes

  datatype ConnectionType = UNKNOWN | MQTT_31 | MQTT_311 | MQTT_5

  /**
   * `client` is what `id()` answers; `output` is everything written so far; `room` is how many more
   * bytes the peer will take before the connection breaks; `lost` says that some write has failed.
   */
  datatype Link = Link(client: nat, output: seq<byte>, room: nat, lost: bool, kind: ConnectionType)

  /** One write: all of `data`, or as much of it as still goes out before the write fails. */
  function Send(l: Link, data: seq<byte>): Link {
    if |data| <= l.room then
      l.(output := l.output + data, room := l.room - |data|)
    else
      l.(output := l.output + data[..l.room], room := 0, lost := true)
  }

  /** Nothing has been written yet. */
  predicate Unused(l: Link) {
    l.output == [] && !l.lost
  }

  function Close(l: Link): Link {
    l.(room := 0)
  }

  /** Two writes in a row are one write of both, failures and partial output included. */
  lemma SendConcat(l: Link, a: seq<byte>, b: seq<byte>)
    ensures Send(Send(l, a), b) == Send(l, a + b)
  {
    if |a| + |b| <= l.room {
      assert l.output + a + b == l.output + (a + b);
    } else if |a| <= l.room {
      assert (a + b)[..l.room] == a + b[..l.room - |a|];
      assert l.output + a + b[..l.room - |a|] == l.output + (a + b)[..l.room];
    } else if b == [] {
      assert a + b == a;
      assert l.output + a[..l.room] + b == l.output + a[..l.room];
    } else {
      assert (a + b)[..l.room] == a[..l.room];
      assert l.output + a[..l.room] + b[..0] == l.output + a[..l.room];
    }
  }

  lemma SendNothing(l: Link)
    ensures Send(l, []) == l
  {
    assert l.output + [] == l.output;
  }

  /** A failed write leaves no room behind. */
  predicate Spent(l: Link) {
    l.lost ==> l.room == 0
  }

  /** `m` is `l` after attempts to write `data`: complete unless a write failed, and else cut short. */
  predicate Carries(l: Link, m: Link, data: seq<byte>) {
    && m.client == l.client
    && Spent(m)
    && l.output <= m.output <= l.output + data
    && (!m.lost ==> !l.lost && m.output == l.output + data)
    && (l.room == 0 ==> m.room == 0 && m.output == l.output)
  }

  /** The same for a link that was not known before and carries `data` since. */
  predicate Begins(m: Link, data: seq<byte>) {
    && Spent(m)
    && m.output <= data
    && (!m.lost ==> m.output == data)
  }

  lemma SendCarries(l: Link, data: seq<byte>)
    requires Spent(l)
    ensures Carries(l, Send(l, data), data)
  {
  }

  lemma BeginsConcat(m: Link, n: Link, a: seq<byte>, b: seq<byte>)
    requires Begins(m, a) && Carries(m, n, b)
    ensures Begins(n, a + b)
  {
  }

  lemma CarriesConcat(l: Link, m: Link, n: Link, a: seq<byte>, b: seq<byte>)
    requires Carries(l, m, a) && Carries(m, n, b)
    ensures Carries(l, n, a + b)
  {
    assert l.output + a + b == l.output + (a + b);
  }
}
