/**
 Batching a task's terminal stream (backend/discord_notifier.py): lines wait in
 a per-task buffer for a timer, an early flush or the task's end. The steps are
 the stretches between awaits; a drain has no await between taking the lock and
 releasing it, so it is one step.
 */
module StreamBuffer {
  import opened StreamFormat

  const STREAM_FLUSH_CHARS := 1500

  /** `timer` says that a delayed flush is waiting. */
  datatype Buffer = Buffer(guild: string, lines: seq<Entry>, size: nat, timer: bool, turns: nat)

  /** What happens to buffers: a batch is drained, to be posted, or the buffer is dropped. */
  datatype Item = Batched(task: string, guild: string, entries: seq<Entry>, start: nat) | Closed(task: string)

  /** `immediate` holds the early flushes scheduled and not yet run. */
  datatype Hub = Hub(buffers: map<string, Buffer>, immediate: multiset<string>, log: seq<Item>)

  datatype Event =
    | Notify(guild: string, task: string, entry: Entry, enabled: bool)
    | TimerFires(task: string)
    | EarlyFlush(task: string)
    | TerminalFlush(task: string)

  // ---------------------------------------------------------------- specification of the steps

  predicate IsSpace(c: char) {
    var n := c as int;
    9 <= n <= 13 || 28 <= n <= 32 || n == 0x85 || n == 0xa0 || n == 0x1680 || 0x2000 <= n <= 0x200a
    || n == 0x2028 || n == 0x2029 || n == 0x202f || n == 0x205f || n == 0x3000
  }

  predicate Blank(line: string) {
    forall i :: 0 <= i < |line| ==> IsSpace(line[i])
  }

  predicate Accepts(e: Event) {
    e.Notify? && e.enabled && e.task != "" && !Blank(e.entry.line)
  }

  function BufferOf(hub: Hub, task: string, guild: string): Buffer {
    if task in hub.buffers then hub.buffers[task] else Buffer(guild, [], 0, false, 0)
  }

  function Emptied(b: Buffer): Buffer {
    if b.lines == [] then b else b.(lines := [], size := 0, turns := Formatted(b.lines, b.turns).turn)
  }

  function Batch(b: Buffer, task: string): seq<Item> {
    if b.lines == [] then [] else [Batched(task, b.guild, b.lines, b.turns)]
  }

  function Notified(hub: Hub, guild: string, task: string, entry: Entry): Hub {
    var b := BufferOf(hub, task, guild);
    var size := b.size + |entry.line| + 1;
    if size >= STREAM_FLUSH_CHARS
    then hub.(buffers := hub.buffers[task := b.(lines := b.lines + [entry], size := size, timer := false)],
              immediate := hub.immediate + multiset{task})
    else hub.(buffers := hub.buffers[task := b.(lines := b.lines + [entry], size := size, timer := true)])
  }

  function Drained(hub: Hub, task: string): Hub {
    if task !in hub.buffers then hub
    else
      var b := hub.buffers[task];
      hub.(buffers := hub.buffers[task := Emptied(b)], log := hub.log + Batch(b, task))
  }

  function Step(hub: Hub, e: Event): Hub {
    match e
    case Notify(guild, task, entry, _) => if Accepts(e) then Notified(hub, guild, task, entry) else hub
    case TimerFires(task) =>
      if task in hub.buffers && hub.buffers[task].timer
      then Drained(hub.(buffers := hub.buffers[task := hub.buffers[task].(timer := false)]), task)
      else hub
    case EarlyFlush(task) =>
      if hub.immediate[task] > 0 then Drained(hub.(immediate := hub.immediate - multiset{task}), task) else hub
    case TerminalFlush(task) =>
      if task in hub.buffers
      then hub.(buffers := hub.buffers - {task}, log := hub.log + Batch(hub.buffers[task], task) + [Closed(task)])
      else hub
  }

  function At(events: seq<Event>, n: nat): Hub
    requires n <= |events|
  {
    if n == 0 then Hub(map[], multiset{}, []) else Step(At(events, n - 1), events[n - 1])
  }

  // ---------------------------------------------------------------- the code

  class StreamHub {
    var buffers: map<string, Buffer>
    var immediate: multiset<string>
    var log: seq<Item>

    function Snapshot(): Hub
      reads this
    {
      Hub(buffers, immediate, log)
    }

    constructor ()
      ensures Snapshot() == At([], 0)
    {
      buffers, immediate, log := map[], multiset{}, [];
    }

    /** notify_task_stream */
    method NotifyTaskStream(guild: string, task: string, entry: Entry, enabled: bool)
      modifies this
      ensures Snapshot() == Step(old(Snapshot()), Notify(guild, task, entry, enabled))
    {
      if !enabled {
        return;
      }
      if task == "" || entry.line == "" || Blank(entry.line) {
        return;
      }
      BufferLine(guild, task, entry);
    }

    /** Past its guards: append the line, and see that a flush is due. */
    method BufferLine(guild: string, task: string, entry: Entry)
      modifies this
      ensures Snapshot() == Notified(old(Snapshot()), guild, task, entry)
    {
      ghost var was := BufferOf(Snapshot(), task, guild);
      if task !in buffers {
        buffers := buffers[task := Buffer(guild, [], 0, false, 0)];
      }
      var b := buffers[task];
      b := b.(lines := b.lines + [entry]);
      b := b.(size := b.size + |entry.line| + 1);
      if b.size >= STREAM_FLUSH_CHARS {
        if b.timer {
          b := b.(timer := false);
        }
        immediate := immediate + multiset{task};
      } else if !b.timer {
        b := b.(timer := true);
      }
      buffers := buffers[task := b];
      assert b == was.(lines := was.lines + [entry], size := was.size + |entry.line| + 1, timer := b.timer);
      assert buffers == old(buffers)[task := b];
    }

    /** _drain_and_post on the buffer registered for the task, up to the release of its lock. */
    method DrainRegistered(task: string)
      requires task in buffers
      modifies this
      ensures Snapshot() == Drained(old(Snapshot()), task)
    {
      var b := buffers[task];
      if b.lines == [] {
        assert buffers[task := b] == buffers && log + [] == log;
        return;
      }
      var content, turn := FormatStreamEntries(b.lines, b.turns);
      log := log + [Batched(task, b.guild, b.lines, b.turns)];
      buffers := buffers[task := b.(lines := [], size := 0, turns := turn)];
    }

    /** _delayed_flush, from the end of its sleep */
    method DelayedFlush(task: string)
      requires task in buffers && buffers[task].timer
      modifies this
      ensures Snapshot() == Step(old(Snapshot()), TimerFires(task))
    {
      buffers := buffers[task := buffers[task].(timer := false)];
      DrainRegistered(task);
    }

    /** The body of a scheduled _flush_task_stream. */
    method RunEarlyFlush(task: string)
      requires immediate[task] > 0
      modifies this
      ensures Snapshot() == Step(old(Snapshot()), EarlyFlush(task))
    {
      immediate := immediate - multiset{task};
      if task !in buffers {
        return;
      }
      DrainRegistered(task);
    }

    /** flush_task_stream */
    method FlushTaskStream(task: string)
      modifies this
      ensures Snapshot() == Step(old(Snapshot()), TerminalFlush(task))
    {
      if task !in buffers {
        return;
      }
      DrainRegistered(task);
      buffers := buffers - {task};
      log := log + [Closed(task)];
    }
  }
}
