/**
 From a drained batch to the thread (backend/discord_notifier.py,
 _post_task_stream). A drain lets go of its lock before it posts: each batch is
 posted by its own coroutine, which first looks up the thread and then sends one
 message per chunk, and any of these awaits can fail. Posts of one task can
 overlap, so what arrives is a matter of their interleaving.
 */
module StreamPosts {
  import opened Sequences
  import opened Chunking
  import F = StreamFormat
  import B = StreamBuffer

  const MAX_MESSAGE_LENGTH := 2000

  /** One message, numbered in the order of draining. */
  datatype Piece = Piece(number: nat, task: string, text: string)

  /** A posting coroutine: whether its thread is known, and the messages it has yet to send. */
  datatype Post = Post(guild: string, located: bool, left: seq<Piece>)

  /** `issued` is every message ever cut from a batch, `thread` every message accepted, in the order of acceptance. */
  datatype World = World(hub: B.Hub, posts: seq<Post>, issued: seq<Piece>, thread: seq<Piece>)

  datatype Event =
    | Stream(event: B.Event)
    | PostStep(k: nat, ok: bool)

  // ---------------------------------------------------------------- specification

  function NumberedPieces(n: nat, task: string, texts: seq<string>): seq<Piece> {
    seq(|texts|, i requires 0 <= i < |texts| => Piece(n + i, task, texts[i]))
  }

  /** The messages of a batch. */
  function BatchTexts(entries: seq<F.Entry>, start: nat): seq<string> {
    Chunks(F.Rendered(F.Formatted(entries, start).output), MAX_MESSAGE_LENGTH)
  }

  /** A drained batch gets its posting coroutine. */
  function Begun(w: World, x: B.Item): World {
    match x
    case Closed(_) => w
    case Batched(task, guild, entries, start) =>
      var pieces := NumberedPieces(|w.issued|, task, BatchTexts(entries, start));
      w.(posts := w.posts + [Post(guild, false, pieces)], issued := w.issued + pieces)
  }

  function BegunAll(w: World, items: seq<B.Item>): World {
    if items == [] then w else Begun(BegunAll(w, items[..|items| - 1]), items[|items| - 1])
  }

  /** What a step of the buffers has drained. */
  function Drains(before: B.Hub, after: B.Hub): seq<B.Item> {
    if |before.log| <= |after.log| then after.log[|before.log|..] else []
  }

  /** The messages at stake in a coroutine's next await: all of them before the thread is known, then one. */
  function AtStake(q: Post): seq<Piece> {
    if q.left == [] then [] else if q.located then [q.left[0]] else q.left
  }

  /** The await returns, or fails: without a thread everything is dropped, and a failed message is not sent again. */
  function Resumed(q: Post, ok: bool): Post {
    if !q.located then Post(q.guild, true, if ok then q.left else [])
    else if q.left == [] then q
    else q.(left := q.left[1..])
  }

  function Resume(w: World, k: nat, ok: bool): World
    requires k < |w.posts|
  {
    var q := w.posts[k];
    w.(posts := w.posts[k := Resumed(q, ok)],
       thread := w.thread + if q.located && ok then AtStake(q) else [])
  }

  function Step(w: World, e: Event): World {
    match e
    case Stream(event) =>
      var after := B.Step(w.hub, event);
      BegunAll(w.(hub := after), Drains(w.hub, after))
    case PostStep(k, ok) => if k < |w.posts| then Resume(w, k, ok) else w
  }

  function At(events: seq<Event>, n: nat): World
    requires n <= |events|
  {
    if n == 0 then World(B.At([], 0), [], [], []) else Step(At(events, n - 1), events[n - 1])
  }

  // ---------------------------------------------------------------- the code

  class Poster {
    var posts: seq<Post>
    var issued: seq<Piece>
    var thread: seq<Piece>

    function Snapshot(hub: B.Hub): World
      reads this
    {
      World(hub, posts, issued, thread)
    }

    constructor ()
      ensures Snapshot(B.At([], 0)) == At([], 0)
    {
      posts, issued, thread := [], [], [];
    }

    /** The drain's call of _post_task_stream, up to its first await. */
    method PostTaskStream(task: string, guild: string, entries: seq<F.Entry>, start: nat, content: string,
                          ghost hub: B.Hub)
      requires content == F.Rendered(F.Formatted(entries, start).output)
      modifies this
      ensures Snapshot(hub) == Begun(old(Snapshot(hub)), B.Batched(task, guild, entries, start))
    {
      var chunks := ChunkContent(content, MAX_MESSAGE_LENGTH);
      var pieces := NumberedPieces(|issued|, task, chunks);
      posts := posts + [Post(guild, false, pieces)];
      issued := issued + pieces;
    }

    /** An await of one of the coroutines returns. */
    method AwaitReturns(k: nat, ok: bool, ghost hub: B.Hub)
      requires k < |posts|
      modifies this
      ensures Snapshot(hub) == Step(old(Snapshot(hub)), PostStep(k, ok))
    {
      var q := posts[k];
      if !q.located {
        q := q.(located := true);
        if !ok {
          q := q.(left := []);
        }
      } else if q.left != [] {
        if ok {
          thread := thread + [q.left[0]];
        }
        q := q.(left := q.left[1..]);
      }
      posts := posts[k := q];
      assert old(thread) + [] == old(thread);
    }
  }
}
