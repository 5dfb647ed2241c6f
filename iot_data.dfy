/** The sensor feed hook's state update: every parsed message is appended
    and only the newest `WindowSize` readings are kept. */
module IotData {
  import opened Common

  const WindowSize := 20

  /** The last `n` elements of `s`, or all of `s` when it is shorter. */
  function LastN<T>(s: seq<T>, n: nat): (r: seq<T>)
    ensures |r| == if |s| > n then n else |s|
    ensures r == s[|s| - |r|..]
  {
    if |s| > n then s[|s| - n..] else s
  }

  /** The `setIotData` reducer: `[...prev, data]`, cut to its last 20
      elements when longer. */
  function Push<T>(prev: seq<T>, data: T): (r: seq<T>)
    ensures |r| == if |prev| < WindowSize then |prev| + 1 else WindowSize
    ensures |prev| < WindowSize ==> r == prev + [data]
    ensures |prev| >= WindowSize ==> r == (prev + [data])[|prev| + 1 - WindowSize..]
    ensures r != [] && r[|r| - 1] == data
  {
    var updated := prev + [data];
    if |updated| > WindowSize then updated[|updated| - WindowSize..] else updated
  }

  /** The reducer keeps the last window of the appended buffer. */
  lemma PushIsLastN<T>(prev: seq<T>, data: T)
    ensures Push(prev, data) == LastN(prev + [data], WindowSize)
  {
  }

  /** A buffer the hook built never exceeds the window, and stays so. */
  lemma PushKeepsWindow<T>(prev: seq<T>, data: T)
    requires |prev| <= WindowSize
    ensures |Push(prev, data)| <= WindowSize
  {
  }

  /** `onmessage`: `parsed` is the result of `JSON.parse`, None when it
      throws; an unparsable message leaves the buffer as it is. */
  function OnMessage<T>(prev: seq<T>, parsed: Option<T>): (r: seq<T>)
    ensures parsed.None? ==> r == prev
    ensures parsed.Some? ==> r == Push(prev, parsed.value)
  {
    match parsed
    case None => prev
    case Some(d) => Push(prev, d)
  }

  /** The buffer after a run of messages, handled in order. */
  function Feed<T>(buf: seq<T>, msgs: seq<Option<T>>): seq<T>
    decreases |msgs|
  {
    if msgs == [] then buf else Feed(OnMessage(buf, msgs[0]), msgs[1..])
  }

  /** The readings of the messages that parsed, in order. */
  function Parsed<T>(msgs: seq<Option<T>>): (r: seq<T>)
    ensures |r| <= |msgs|
    decreases |msgs|
  {
    if msgs == [] then []
    else (if msgs[0].Some? then [msgs[0].value] else []) + Parsed(msgs[1..])
  }

  /** Whatever the messages, a buffer within the window ends up holding the
      last 20 readings among the old buffer followed by every parsed
      reading, in arrival order. */
  lemma {:induction false} FeedIsLastWindow<T>(buf: seq<T>, msgs: seq<Option<T>>)
    requires |buf| <= WindowSize
    ensures Feed(buf, msgs) == LastN(buf + Parsed(msgs), WindowSize)
    decreases |msgs|
  {
    if msgs == [] {
      assert buf + Parsed(msgs) == buf;
    } else {
      FeedIsLastWindow(OnMessage(buf, msgs[0]), msgs[1..]);
      OneMessage(buf, msgs);
    }
  }

  /** Handling the first message and then keeping the last window of the
      rest gives the last window of the whole. */
  lemma OneMessage<T>(buf: seq<T>, msgs: seq<Option<T>>)
    requires |buf| <= WindowSize && msgs != []
    ensures LastN(OnMessage(buf, msgs[0]) + Parsed(msgs[1..]), WindowSize)
         == LastN(buf + Parsed(msgs), WindowSize)
  {
    var rest := Parsed(msgs[1..]);
    match msgs[0]
    case None =>
      assert Parsed(msgs) == rest;
    case Some(d) =>
      assert Parsed(msgs) == [d] + rest;
      OneReading(buf, d, rest);
  }

  /** A reading followed by `rest`, as the step above needs it. */
  lemma OneReading<T>(buf: seq<T>, d: T, rest: seq<T>)
    ensures LastN(Push(buf, d) + rest, WindowSize) == LastN(buf + ([d] + rest), WindowSize)
  {
    assert buf + ([d] + rest) == (buf + [d]) + rest;
    PushIsLastN(buf, d);
    LastNConcat(buf + [d], rest, WindowSize);
  }

  /** Cutting `a` to its last `n` elements first does not change the last
      `n` elements of `a + b`. */
  lemma LastNConcat<T>(a: seq<T>, b: seq<T>, n: nat)
    ensures LastN(LastN(a, n) + b, n) == LastN(a + b, n)
  {
    if |a| > n {
      var k := |a| - n;
      var a' := a[k..];
      assert LastN(a, n) == a';
      assert a' + b == (a + b)[k..];
      if b == [] {
        assert a + b == a && a' + b == a';
      } else {
        assert LastN(a' + b, n) == (a' + b)[|b|..];
        assert LastN(a + b, n) == (a + b)[k + |b|..];
        assert (a + b)[k..][|b|..] == (a + b)[k + |b|..];
      }
    }
  }
}
