/**
 Cutting a message array down to what the provider accepts
 (backend/foreman/message_utils.py): the token budget of conversation-scoped
 runs and the message window of the others.
 */
module ContextBudget {
  import opened Messages

  const FOREMAN_CONTEXT_TOKEN_BUDGET := 120_000
  const MAX_HISTORY_MESSAGES := 20

  // ---------------------------------------------------------------- specification

  /** The messages from the first user turn on. */
  function FromFirstUser(messages: seq<Message>): (r: seq<Message>)
    ensures |r| <= |messages|
    ensures r == [] || r[0].role.User?
  {
    if messages == [] || messages[0].role.User? then messages else FromFirstUser(messages[1..])
  }

  /** Drop whole messages from the front while more than one is left and they do not fit. */
  function WithinBudget(sizes: Sizes, messages: seq<Message>, budget: int): (r: seq<Message>)
    ensures |r| <= |messages|
    ensures messages != [] ==> r != []
    ensures |r| <= 1 || Tokens(sizes, r) <= budget
  {
    if |messages| <= 1 || Tokens(sizes, messages) <= budget then messages
    else WithinBudget(sizes, messages[1..], budget)
  }

  function Fit(sizes: Sizes, messages: seq<Message>, budget: int): seq<Message> {
    FromFirstUser(WithinBudget(sizes, messages, budget))
  }

  /** Python's messages[-max:], taken only when there are more than max messages. */
  function Window(messages: seq<Message>, max: int): seq<Message> {
    if |messages| <= max then messages
    else if max > 0 then messages[|messages| - max..]
    else if -max <= |messages| then messages[-max..]
    else []
  }

  function Prune(messages: seq<Message>, max: int): seq<Message> {
    FromFirstUser(Window(messages, max))
  }

  // ---------------------------------------------------------------- the code

  /** fit_token_budget: walk backwards, adding whole messages while they fit. */
  method FitTokenBudget(sizes: Sizes, messages: seq<Message>, budget: int) returns (kept: seq<Message>)
    ensures kept == Fit(sizes, messages, budget)
  {
    var total := 0;
    var start := |messages|;
    var i := |messages| - 1;
    while i >= 0
      invariant -1 <= i < |messages| && start == i + 1
      invariant total == Tokens(sizes, messages[start..])
      invariant start == |messages| || start + 1 == |messages| || total <= budget
    {
      assert messages[i..][1..] == messages[start..];
      if start < |messages| && total + MessageTokens(sizes, messages[i]) > budget {
        break;
      }
      total := total + MessageTokens(sizes, messages[i]);
      start := i;
      i := i - 1;
    }
    if start > 0 {
      assert messages[start - 1..][1..] == messages[start..];
    }
    CutIsUnique(sizes, messages, budget, start);
    kept := messages[start..];
    while kept != [] && !kept[0].role.User?
      invariant FromFirstUser(kept) == FromFirstUser(messages[start..])
    {
      kept := kept[1..];
    }
  }

  /** prune_history: the last `max` messages, then from the first user turn on. */
  method PruneHistory(messages: seq<Message>, max: int) returns (kept: seq<Message>)
    ensures kept == Prune(messages, max)
  {
    kept := messages;
    if |messages| > max {
      kept := if max > 0 then messages[|messages| - max..]
              else if -max <= |messages| then messages[-max..] else [];
    }
    while kept != [] && !kept[0].role.User?
      invariant FromFirstUser(kept) == Prune(messages, max)
    {
      kept := kept[1..];
    }
  }

  // ---------------------------------------------------------------- properties

  lemma {:induction false} TokensOfConcat(sizes: Sizes, a: seq<Message>, b: seq<Message>)
    ensures Tokens(sizes, a + b) == Tokens(sizes, a) + Tokens(sizes, b)
  {
    if a == [] {
      assert a + b == b;
    } else {
      assert (a + b)[1..] == a[1..] + b;
      TokensOfConcat(sizes, a[1..], b);
    }
  }

  lemma {:induction false} FromFirstUserIsSuffix(messages: seq<Message>)
    ensures IsSuffix(FromFirstUser(messages), messages)
  {
    if messages != [] && !messages[0].role.User? {
      FromFirstUserIsSuffix(messages[1..]);
    }
  }

  lemma {:induction false} WithinBudgetIsSuffix(sizes: Sizes, messages: seq<Message>, budget: int)
    ensures IsSuffix(WithinBudget(sizes, messages, budget), messages)
  {
    if |messages| > 1 && Tokens(sizes, messages) > budget {
      WithinBudgetIsSuffix(sizes, messages[1..], budget);
    }
  }

  lemma {:induction false} SuffixTokens(sizes: Sizes, messages: seq<Message>, i: nat, j: nat)
    requires i <= j <= |messages|
    ensures Tokens(sizes, messages[j..]) <= Tokens(sizes, messages[i..])
  {
    assert messages[i..] == messages[i..j] + messages[j..];
    TokensOfConcat(sizes, messages[i..j], messages[j..]);
  }

  /** Where the backward walk stops is where dropping from the front stops. */
  lemma {:induction false} CutIsUnique(sizes: Sizes, messages: seq<Message>, budget: int, start: nat)
    requires start <= |messages|
    requires start == |messages| ==> start == 0
    requires start + 1 >= |messages| || Tokens(sizes, messages[start..]) <= budget
    requires start > 0 ==> Tokens(sizes, messages[start - 1..]) > budget
    ensures WithinBudget(sizes, messages, budget) == messages[start..]
  {
    if start > 0 {
      SuffixTokens(sizes, messages, 0, start - 1);
      assert messages[0..] == messages;
      assert messages[1..][start - 1..] == messages[start..];
      if start > 1 {
        assert messages[1..][start - 2..] == messages[start - 1..];
      }
      CutIsUnique(sizes, messages[1..], budget, start - 1);
    }
  }

  /**
   The cut is optimal: a suffix of two or more messages is within the budget
   exactly when it is no longer than what the cut keeps, and the newest
   message is always kept.
   */
  lemma {:induction false} CutIsOptimal(sizes: Sizes, messages: seq<Message>, budget: int, suffix: seq<Message>)
    requires IsSuffix(suffix, messages) && suffix != []
    ensures var kept := WithinBudget(sizes, messages, budget);
            kept != [] &&
            (|suffix| <= |kept| <==> |suffix| == 1 || Tokens(sizes, suffix) <= budget)
  {
    SuffixTokens(sizes, messages, 0, |messages| - |suffix|);
    assert messages[0..] == messages;
    if |messages| > 1 && Tokens(sizes, messages) > budget {
      if |suffix| == |messages| {
        assert suffix == messages;
      } else {
        assert messages[1..][|messages| - 1 - |suffix|..] == suffix;
        CutIsOptimal(sizes, messages[1..], budget, suffix);
      }
    }
  }

  lemma {:induction false} FitResult(sizes: Sizes, messages: seq<Message>, budget: int)
    ensures var r := Fit(sizes, messages, budget);
            && IsSuffix(r, messages)
            && (r == [] || r[0].role.User?)
            && (|r| <= 1 || Tokens(sizes, r) <= budget)
  {
    var cut := WithinBudget(sizes, messages, budget);
    var r := FromFirstUser(cut);
    WithinBudgetIsSuffix(sizes, messages, budget);
    FromFirstUserIsSuffix(cut);
    SuffixIsTransitive(r, cut, messages);
    SuffixIsNoHeavier(sizes, r, cut);
  }

  lemma {:induction false} SuffixIsNoHeavier(sizes: Sizes, part: seq<Message>, whole: seq<Message>)
    requires IsSuffix(part, whole)
    ensures Tokens(sizes, part) <= Tokens(sizes, whole)
  {
    SuffixTokens(sizes, whole, 0, |whole| - |part|);
    assert whole[0..] == whole;
  }

  lemma {:induction false} FitIsIdempotent(sizes: Sizes, messages: seq<Message>, budget: int)
    ensures Fit(sizes, Fit(sizes, messages, budget), budget) == Fit(sizes, messages, budget)
  {
    FitResult(sizes, messages, budget);
  }

  /** The cut commutes with dropping a leading non-user message. */
  lemma {:induction false} FitIgnoresNonUserHead(sizes: Sizes, messages: seq<Message>, budget: int)
    requires messages != [] && !messages[0].role.User?
    ensures Fit(sizes, messages, budget) == Fit(sizes, messages[1..], budget)
  {
    var rest := messages[1..];
    if |messages| <= 1 || Tokens(sizes, messages) <= budget {
      assert WithinBudget(sizes, messages, budget) == messages;
      assert WithinBudget(sizes, rest, budget) == rest;
      assert FromFirstUser(messages) == FromFirstUser(rest);
    } else {
      assert WithinBudget(sizes, messages, budget) == WithinBudget(sizes, rest, budget);
    }
  }

  lemma {:induction false} FitOfFromFirstUser(sizes: Sizes, messages: seq<Message>, budget: int)
    ensures Fit(sizes, FromFirstUser(messages), budget) == Fit(sizes, messages, budget)
  {
    if messages != [] && !messages[0].role.User? {
      FitIgnoresNonUserHead(sizes, messages, budget);
      FitOfFromFirstUser(sizes, messages[1..], budget);
    }
  }

  lemma {:induction false} FromFirstUserIsMonotone(a: seq<Message>, b: seq<Message>)
    requires IsSuffix(a, b)
    ensures IsSuffix(FromFirstUser(a), FromFirstUser(b))
    decreases |b|
  {
    if |a| < |b| {
      assert b[1..][|b| - 1 - |a|..] == a;
      if b[0].role.User? {
        FromFirstUserIsSuffix(a);
        SuffixIsTransitive(FromFirstUser(a), a, b);
      } else {
        FromFirstUserIsMonotone(a, b[1..]);
      }
    } else {
      assert a == b;
    }
  }

  lemma {:induction false} WithinBudgetIsMonotone(sizes: Sizes, messages: seq<Message>, low: int, high: int)
    requires low <= high
    ensures IsSuffix(WithinBudget(sizes, messages, low), WithinBudget(sizes, messages, high))
  {
    if !(|messages| <= 1 || Tokens(sizes, messages) <= high) {
      WithinBudgetIsMonotone(sizes, messages[1..], low, high);
    } else {
      WithinBudgetIsSuffix(sizes, messages, low);
    }
  }

  /** A larger budget never loses a message that a smaller one keeps. */
  lemma {:induction false} FitIsMonotone(sizes: Sizes, messages: seq<Message>, low: int, high: int)
    requires low <= high
    ensures IsSuffix(Fit(sizes, messages, low), Fit(sizes, messages, high))
  {
    WithinBudgetIsMonotone(sizes, messages, low, high);
    FromFirstUserIsMonotone(WithinBudget(sizes, messages, low), WithinBudget(sizes, messages, high));
  }

  /** Old messages that the cut drops anyway may as well never be read. */
  lemma {:induction false} CutIgnoresWhatItDrops(sizes: Sizes, messages: seq<Message>, budget: int, p: nat)
    requires p <= |messages|
    requires p > 0 ==> p < |messages| && Tokens(sizes, messages[p - 1..]) > budget
    ensures WithinBudget(sizes, messages[p..], budget) == WithinBudget(sizes, messages, budget)
  {
    if p == 0 {
      assert messages[0..] == messages;
    } else {
      SuffixTokens(sizes, messages, 0, p - 1);
      assert messages[0..] == messages;
      assert messages[1..][p - 1..] == messages[p..];
      if p > 1 {
        assert messages[1..][p - 2..] == messages[p - 1..];
      }
      CutIgnoresWhatItDrops(sizes, messages[1..], budget, p - 1);
    }
  }

  lemma {:induction false} FromFirstUserReaches(messages: seq<Message>, p: nat)
    requires p < |messages| && messages[p].role.User?
    ensures |FromFirstUser(messages)| >= |messages| - p && IsSuffix(FromFirstUser(messages), messages)
  {
    FromFirstUserIsSuffix(messages);
    if p > 0 && !messages[0].role.User? {
      FromFirstUserReaches(messages[1..], p - 1);
    }
  }

  lemma {:induction false} FromFirstUserSkips(messages: seq<Message>, p: nat)
    requires p <= |messages| && forall i :: 0 <= i < p ==> !messages[i].role.User?
    ensures FromFirstUser(messages) == FromFirstUser(messages[p..])
  {
    if p > 0 {
      FromFirstUserSkips(messages[1..], p - 1);
      assert messages[1..][p - 1..] == messages[p..];
    } else {
      assert messages[0..] == messages;
    }
  }

  /** A user message before position `q` that fits the budget with all that follows it, or is the newest message. */
  ghost predicate OlderUserFits(sizes: Sizes, messages: seq<Message>, q: nat, budget: int) {
    exists i: nat :: i < q && i < |messages| && messages[i].role.User?
                     && (i == |messages| - 1 || Tokens(sizes, messages[i..]) <= budget)
  }

  lemma {:induction false} CutHasOlderUser(sizes: Sizes, messages: seq<Message>, q: nat, i: nat, budget: int)
    requires i < q <= |messages| && messages[i].role.User?
    requires i == |messages| - 1 || Tokens(sizes, messages[i..]) <= budget
    ensures |Fit(sizes, messages, budget)| > |messages| - q
  {
    var cut := WithinBudget(sizes, messages, budget);
    WithinBudgetIsSuffix(sizes, messages, budget);
    assert IsSuffix(messages[i..], messages);
    CutIsOptimal(sizes, messages, budget, messages[i..]);
    var p := i - (|messages| - |cut|);
    assert cut[p] == messages[i];
    FromFirstUserReaches(cut, p);
  }

  lemma {:induction false} CutBehind(sizes: Sizes, messages: seq<Message>, q: nat, budget: int)
    requires q <= |messages| && |WithinBudget(sizes, messages, budget)| <= |messages| - q
    ensures WithinBudget(sizes, messages[q..], budget) == WithinBudget(sizes, messages, budget)
  {
    if q > 0 {
      assert IsSuffix(messages[q - 1..], messages);
      CutIsOptimal(sizes, messages, budget, messages[q - 1..]);
    }
    CutIgnoresWhatItDrops(sizes, messages, budget, q);
  }

  lemma {:induction false} CutBefore(sizes: Sizes, messages: seq<Message>, q: nat, budget: int)
    requires q <= |messages| && |WithinBudget(sizes, messages, budget)| > |messages| - q
    requires !OlderUserFits(sizes, messages, q, budget)
    ensures Fit(sizes, messages[q..], budget) == Fit(sizes, messages, budget)
  {
    var cut := WithinBudget(sizes, messages, budget);
    var w := |messages| - |cut|;
    WithinBudgetIsSuffix(sizes, messages, budget);
    forall i | 0 <= i < q - w ensures !cut[i].role.User? {
      var suffix := messages[w + i..];
      assert IsSuffix(suffix, messages) && cut[i] == messages[w + i];
      CutIsOptimal(sizes, messages, budget, suffix);
    }
    FromFirstUserSkips(cut, q - w);
    assert cut[q - w..] == messages[q..];
    SuffixIsNoHeavier(sizes, messages[q..], cut);
    assert WithinBudget(sizes, messages[q..], budget) == messages[q..];
  }

  /** Leaving out old messages beforehand changes the result exactly when it leaves out a user message that fits. */
  lemma {:induction false} CutNoticesOlderUsers(sizes: Sizes, messages: seq<Message>, q: nat, budget: int)
    requires q <= |messages|
    ensures Fit(sizes, messages[q..], budget) != Fit(sizes, messages, budget)
            <==> OlderUserFits(sizes, messages, q, budget)
  {
    if OlderUserFits(sizes, messages, q, budget) {
      var i: nat :| i < q && i < |messages| && messages[i].role.User?
                    && (i == |messages| - 1 || Tokens(sizes, messages[i..]) <= budget);
      CutHasOlderUser(sizes, messages, q, i, budget);
    } else if |WithinBudget(sizes, messages, budget)| <= |messages| - q {
      CutBehind(sizes, messages, q, budget);
    } else {
      CutBefore(sizes, messages, q, budget);
    }
  }

  lemma {:induction false} FromFirstUserNonEmpty(messages: seq<Message>)
    ensures FromFirstUser(messages) != [] <==> exists m :: m in messages && m.role.User?
  {
    if messages == [] {
    } else if messages[0].role.User? {
      assert messages[0] in messages;
    } else {
      FromFirstUserNonEmpty(messages[1..]);
      assert forall m :: m in messages <==> m == messages[0] || m in messages[1..];
    }
  }

  /**
   The window is the end of the array: the last `max` messages, all of them for a
   window of 0, and all but the first -max for a negative one.
   */
  lemma {:induction false} WindowReadsOff(messages: seq<Message>, max: int)
    ensures IsSuffix(Window(messages, max), messages)
    ensures var n := |messages|;
            |Window(messages, max)|
            == if max > 0 then (if n < max then n else max) else (if n + max > 0 then n + max else 0)
  {
    assert messages[0..] == messages;
  }

  /**
   prune_history promises at most `max` messages. A window of zero is
   messages[-0:], the whole array, so for max >= 0 the promise is kept exactly
   when the window is positive or there is no user turn to keep.
   */
  lemma {:induction false} PruneKeepsAtMostMax(messages: seq<Message>, max: nat)
    ensures |Prune(messages, max)| <= max <==> max > 0 || forall m :: m in messages ==> !m.role.User?
  {
    if max == 0 {
      assert messages[0..] == messages;
      assert Window(messages, 0) == messages;
      FromFirstUserNonEmpty(messages);
    }
  }
}
