/**
 * The chat service (src/services/chatService.js): the prompt packer that turns an OpenAI
 * message list into fal's `{system_prompt, prompt}` pair under two character budgets, the
 * tracker that turns fal's cumulative stream output into OpenAI deltas, and the mapping of a
 * non-streamed fal result to a chat completion.
 */
module ChatService {
  import opened Wrappers
  import opened Text

  // ---------------------------------------------------------------------------
  // Messages and their blocks
  // ---------------------------------------------------------------------------

  /** An OpenAI chat message; `content` is `None` when it is null or undefined, else its `String()` text. */
  datatype Message = Message(role: string, content: Option<string>)

  /** What the packer returns. */
  datatype PackedPrompt = PackedPrompt(system_prompt: string, prompt: string)

  /** The text between the fixed system part and the older history spilled into `system_prompt`. */
  const Separator: string := "\n\n-------下面是比较早之前的对话内容-----\n\n"

  /** The room the packer reserves for that separator when it computes the history budget. */
  const SeparatorReserve: nat := 4

  function ContentText(m: Message): string {
    m.content.GetOr("")
  }

  function SystemText(m: Message): string {
    "System: " + ContentText(m) + "\n\n"
  }

  /** The history block of a user or assistant message; other roles have none. */
  function HistoryBlock(m: Message): Option<string> {
    if m.role == "user" then Some("Human: " + ContentText(m) + "\n\n")
    else if m.role == "assistant" then Some("Assistant: " + ContentText(m) + "\n\n")
    else None
  }

  /** What one message adds to the fixed system block. */
  function SystemPart(m: Message): string {
    if m.role == "system" then SystemText(m) else ""
  }

  /** What one message adds to the history blocks. */
  function HistoryPart(m: Message): seq<string> {
    match HistoryBlock(m)
    case Some(b) => [b]
    case None => []
  }

  /** The system messages of `messages`, formatted and concatenated in order. */
  function SystemBlock(messages: seq<Message>): string {
    if messages == [] then ""
    else SystemBlock(messages[..|messages| - 1]) + SystemPart(messages[|messages| - 1])
  }

  /** The blocks of the user and assistant messages of `messages`, oldest first. */
  function HistoryBlocks(messages: seq<Message>): seq<string> {
    if messages == [] then []
    else HistoryBlocks(messages[..|messages| - 1]) + HistoryPart(messages[|messages| - 1])
  }

  lemma SystemBlockSnoc(a: seq<Message>, m: Message)
    ensures SystemBlock(a + [m]) == SystemBlock(a) + SystemPart(m)
  {
    assert (a + [m])[..|a|] == a;
  }

  lemma HistoryBlocksSnoc(a: seq<Message>, m: Message)
    ensures HistoryBlocks(a + [m]) == HistoryBlocks(a) + HistoryPart(m)
  {
    assert (a + [m])[..|a|] == a;
  }

  lemma {:induction false} SystemBlockAppend(a: seq<Message>, b: seq<Message>)
    ensures SystemBlock(a + b) == SystemBlock(a) + SystemBlock(b)
    decreases |b|
  {
    if b == [] {
      assert a + b == a;
    } else {
      var c, m := b[..|b| - 1], b[|b| - 1];
      assert b == c + [m];
      assert a + b == (a + c) + [m];
      SystemBlockSnoc(a + c, m);
      SystemBlockSnoc(c, m);
      SystemBlockAppend(a, c);
      AppendAssoc(SystemBlock(a), SystemBlock(c), SystemPart(m));
    }
  }

  lemma {:induction false} HistoryBlocksAppend(a: seq<Message>, b: seq<Message>)
    ensures HistoryBlocks(a + b) == HistoryBlocks(a) + HistoryBlocks(b)
    decreases |b|
  {
    if b == [] {
      assert a + b == a;
    } else {
      var c, m := b[..|b| - 1], b[|b| - 1];
      assert b == c + [m];
      assert a + b == (a + c) + [m];
      HistoryBlocksSnoc(a + c, m);
      HistoryBlocksSnoc(c, m);
      HistoryBlocksAppend(a, c);
      AppendAssoc(HistoryBlocks(a), HistoryBlocks(c), HistoryPart(m));
    }
  }

  /**
   * Message formatting: a message list is formatted message by message, in input order. A
   * system message adds "System: c\n\n" to the fixed block and no history block; a user or
   * assistant message adds one "Human: c\n\n" or "Assistant: c\n\n" block; any other role adds
   * nothing. Null or undefined content is formatted as "".
   */
  lemma MessageFormatting(before: seq<Message>, m: Message, after: seq<Message>)
    ensures var all := before + [m] + after;
      && SystemBlock(all) == SystemBlock(before)
           + (if m.role == "system" then "System: " + m.content.GetOr("") + "\n\n" else "")
           + SystemBlock(after)
      && HistoryBlocks(all) == HistoryBlocks(before)
           + (if m.role == "user" then ["Human: " + m.content.GetOr("") + "\n\n"]
              else if m.role == "assistant" then ["Assistant: " + m.content.GetOr("") + "\n\n"]
              else [])
           + HistoryBlocks(after)
  {
    SystemBlockAppend(before + [m], after);
    SystemBlockAppend(before, [m]);
    HistoryBlocksAppend(before + [m], after);
    HistoryBlocksAppend(before, [m]);
    assert [m][..0] == [];
  }

  /** The first loop of the packer: split the messages into the fixed system text and the history blocks. */
  method SplitMessages(messages: seq<Message>) returns (fixed: string, blocks: seq<string>)
    ensures fixed == SystemBlock(messages)
    ensures blocks == HistoryBlocks(messages)
  {
    fixed := "";
    blocks := [];
    for i := 0 to |messages|
      invariant fixed == SystemBlock(messages[..i])
      invariant blocks == HistoryBlocks(messages[..i])
    {
      var message := messages[i];
      assert messages[..i + 1] == messages[..i] + [message];
      SystemBlockSnoc(messages[..i], message);
      HistoryBlocksSnoc(messages[..i], message);
      var content := if message.content.None? then "" else message.content.value;
      if message.role == "system" {
        AppendAssoc(fixed + "System: ", content, "\n\n");
        AppendAssoc(fixed, "System: ", content);
        AppendAssoc(fixed, "System: " + content, "\n\n");
        fixed := fixed + "System: " + content + "\n\n";
      } else if message.role == "user" {
        blocks := blocks + ["Human: " + content + "\n\n"];
      } else if message.role == "assistant" {
        blocks := blocks + ["Assistant: " + content + "\n\n"];
      } else {
        continue;
      }
    }
    assert messages[..|messages|] == messages;
  }

  // ---------------------------------------------------------------------------
  // The two history slots
  // ---------------------------------------------------------------------------

  /** The start of the longest suffix of `blocks` whose concatenation is at most `limit` long. */
  function FitSuffixStart(blocks: seq<string>, limit: nat): (k: nat)
    ensures k <= |blocks|
    ensures |Concat(blocks[k..])| <= limit
    ensures k > 0 ==> |Concat(blocks[k - 1..])| > limit
  {
    if |Concat(blocks)| <= limit then
      assert blocks[0..] == blocks;
      0
    else
      var k := 1 + FitSuffixStart(blocks[1..], limit);
      assert blocks[1..][k - 1..] == blocks[k..];
      assert k > 1 ==> blocks[1..][k - 2..] == blocks[k - 1..];
      assert blocks[0..] == blocks;
      k
  }

  /** No suffix that fits starts before `FitSuffixStart`: it is the longest one. */
  lemma FitSuffixStartLongest(blocks: seq<string>, limit: nat, j: nat)
    requires j <= |blocks| && |Concat(blocks[j..])| <= limit
    ensures FitSuffixStart(blocks, limit) <= j
  {
    var k := FitSuffixStart(blocks, limit);
    if k > j {
      ConcatSuffixMonotone(blocks, j, k - 1);
    }
  }

  /** A start from which the suffix fits but one block more would not is `FitSuffixStart`. */
  lemma FitSuffixStartIs(blocks: seq<string>, limit: nat, k: nat)
    requires k <= |blocks| && |Concat(blocks[k..])| <= limit
    requires k > 0 ==> |Concat(blocks[k - 1..])| > limit
    ensures FitSuffixStart(blocks, limit) == k
  {
    var f := FitSuffixStart(blocks, limit);
    FitSuffixStartLongest(blocks, limit, k);
    if f < k {
      ConcatSuffixMonotone(blocks, f, k - 1);
    }
  }

  /** Where the system-history slot starts: the longest run that fits `remaining` right before the prompt slot. */
  function SystemSlotStart(blocks: seq<string>, promptLimit: nat, remaining: nat): (j: nat)
    ensures j <= FitSuffixStart(blocks, promptLimit)
  {
    var k := FitSuffixStart(blocks, promptLimit);
    if remaining > 0 then FitSuffixStart(blocks[..k], remaining) else k
  }

  /**
   * The reverse loop of the packer: walking from the newest block to the oldest, fill the prompt
   * slot while blocks fit, then the system-history slot while blocks fit, and stop when both are full.
   */
  method FillSlots(blocks: seq<string>, promptLimit: nat, remaining: nat)
    returns (promptBlocks: seq<string>, systemBlocks: seq<string>)
    ensures promptBlocks == blocks[FitSuffixStart(blocks, promptLimit)..]
    ensures systemBlocks == blocks[SystemSlotStart(blocks, promptLimit, remaining)..FitSuffixStart(blocks, promptLimit)]
  {
    promptBlocks := [];
    systemBlocks := [];
    var currentPromptLength := 0;
    var currentSystemHistoryLength := 0;
    var promptFull := false;
    var systemHistoryFull := remaining <= 0;
    ghost var k := |blocks|;
    ghost var j := |blocks|;
    for i := |blocks| downto 0
      invariant i <= j <= k <= |blocks|
      invariant promptBlocks == blocks[k..] && currentPromptLength == |Concat(promptBlocks)| <= promptLimit
      invariant systemBlocks == blocks[j..k] && currentSystemHistoryLength == |Concat(systemBlocks)|
      invariant currentSystemHistoryLength <= remaining
      invariant remaining == 0 ==> systemHistoryFull
      invariant !promptFull ==> k == i && j == k && (systemHistoryFull <==> remaining == 0)
      invariant promptFull ==> LongestFit(blocks, promptLimit, k)
      invariant promptFull && !systemHistoryFull ==> j == i
      invariant promptFull && systemHistoryFull && remaining > 0 ==> LongestFit(blocks[..k], remaining, j)
      invariant remaining == 0 ==> j == k
    {
      var block := blocks[i];
      if promptFull && systemHistoryFull {
        break;
      }
      if !promptFull {
        PromptPrepend(blocks, i);
        if currentPromptLength + |block| <= promptLimit {
          promptBlocks := [block] + promptBlocks;
          currentPromptLength := currentPromptLength + |block|;
          k, j := i, i;
          continue;
        } else {
          promptFull := true;
        }
      }
      if !systemHistoryFull {
        SlotPrepend(blocks, i, k);
        if currentSystemHistoryLength + |block| <= remaining {
          systemBlocks := [block] + systemBlocks;
          currentSystemHistoryLength := currentSystemHistoryLength + |block|;
          j := i;
          continue;
        } else {
          systemHistoryFull := true;
        }
      }
    }
    if !promptFull {
      assert blocks[k..] == blocks[0..];
    } else if !systemHistoryFull {
      assert blocks[..k][j..] == blocks[j..k];
    }
    FitSuffixStartIs(blocks, promptLimit, k);
    if remaining > 0 {
      FitSuffixStartIs(blocks[..k], remaining, j);
    }
  }

  /** `k` starts the longest suffix of `blocks` that fits `limit`, as `FitSuffixStart` does. */
  predicate LongestFit(blocks: seq<string>, limit: nat, k: nat) {
    && k <= |blocks|
    && |Concat(blocks[k..])| <= limit
    && (k > 0 ==> |Concat(blocks[k - 1..])| > limit)
  }

  /** Taking block `i` in front of the run `blocks[i + 1..k]`, as the reverse loop does. */
  lemma SlotPrepend(blocks: seq<string>, i: nat, k: nat)
    requires i < k <= |blocks|
    ensures blocks[i..k] == [blocks[i]] + blocks[i + 1..k]
    ensures |Concat(blocks[i..k])| == |blocks[i]| + |Concat(blocks[i + 1..k])|
    ensures blocks[..k][i..] == blocks[i..k] && blocks[..k][i + 1..] == blocks[i + 1..k]
  {
    assert blocks[..k][i..] == blocks[i..k];
    ConcatFrom(blocks[..k], i);
  }

  lemma PromptPrepend(blocks: seq<string>, i: nat)
    requires i < |blocks|
    ensures blocks[i..] == [blocks[i]] + blocks[i + 1..]
    ensures |Concat(blocks[i..])| == |blocks[i]| + |Concat(blocks[i + 1..])|
  {
    ConcatFrom(blocks, i);
  }

  // ---------------------------------------------------------------------------
  // The whole packer
  // ---------------------------------------------------------------------------

  /** The fixed system part: the system block cut to `systemLimit` characters, then trimmed. */
  function FixedSystemPrompt(messages: seq<Message>, systemLimit: nat): (r: string)
    ensures |r| <= systemLimit
  {
    var all := SystemBlock(messages);
    Trim(if |all| > systemLimit then all[..systemLimit] else all)
  }

  /** The budget left for spilled history, after the fixed part and four characters for the separator. */
  function RemainingSystemLimit(fixedLength: nat, systemLimit: nat): nat {
    var occupied := if fixedLength > 0 then fixedLength + SeparatorReserve else 0;
    if systemLimit >= occupied then systemLimit - occupied else 0
  }

  /** The fixed part and the spilled history, separated when both are present. */
  function JoinSystemPrompt(fixed: string, history: string): string {
    if |fixed| > 0 && |history| > 0 then fixed + Separator + history
    else if |fixed| > 0 then fixed
    else history
  }

  /** The prompt-slot blocks and the system-slot blocks the packer selects. */
  function PromptSlot(messages: seq<Message>, promptLimit: nat): seq<string> {
    var blocks := HistoryBlocks(messages);
    blocks[FitSuffixStart(blocks, promptLimit)..]
  }

  function SystemSlot(messages: seq<Message>, systemLimit: nat, promptLimit: nat): seq<string> {
    var blocks := HistoryBlocks(messages);
    var remaining := RemainingSystemLimit(|FixedSystemPrompt(messages, systemLimit)|, systemLimit);
    blocks[SystemSlotStart(blocks, promptLimit, remaining)..FitSuffixStart(blocks, promptLimit)]
  }

  /** `convertMessagesToFalPrompt(messages)` under the limits `systemLimit` and `promptLimit`. */
  function PackedPromptOf(messages: seq<Message>, systemLimit: nat, promptLimit: nat): PackedPrompt {
    PackedPrompt(
      JoinSystemPrompt(FixedSystemPrompt(messages, systemLimit), Trim(Concat(SystemSlot(messages, systemLimit, promptLimit)))),
      Trim(Concat(PromptSlot(messages, promptLimit))))
  }

  method ConvertMessagesToFalPrompt(messages: seq<Message>, systemLimit: nat, promptLimit: nat)
    returns (packed: PackedPrompt)
    ensures packed == PackedPromptOf(messages, systemLimit, promptLimit)
  {
    var fixed, blocks := SplitMessages(messages);
    if |fixed| > systemLimit {
      fixed := fixed[..systemLimit];
    }
    fixed := Trim(fixed);
    assert fixed == FixedSystemPrompt(messages, systemLimit);
    var occupied := 0;
    if |fixed| > 0 {
      occupied := |fixed| + 4;
    }
    var remaining := if systemLimit - occupied > 0 then systemLimit - occupied else 0;
    assert remaining == RemainingSystemLimit(|fixed|, systemLimit);
    var promptBlocks, systemBlocks := FillSlots(blocks, promptLimit, remaining);
    assert promptBlocks == PromptSlot(messages, promptLimit);
    assert systemBlocks == SystemSlot(messages, systemLimit, promptLimit);
    var history := Trim(Concat(systemBlocks));
    var prompt := Trim(Concat(promptBlocks));
    var systemPrompt := "";
    if |fixed| > 0 && |history| > 0 {
      systemPrompt := fixed + Separator + history;
    } else if |fixed| > 0 {
      systemPrompt := fixed;
    } else if |history| > 0 {
      systemPrompt := history;
    }
    assert systemPrompt == JoinSystemPrompt(fixed, history);
    packed := PackedPrompt(systemPrompt, prompt);
  }

  // ---------------------------------------------------------------------------
  // Properties of the packer
  // ---------------------------------------------------------------------------

  /** The prompt-slot blocks, and so the trimmed prompt, fit the prompt budget. */
  lemma PromptWithinLimit(messages: seq<Message>, systemLimit: nat, promptLimit: nat)
    ensures |Concat(PromptSlot(messages, promptLimit))| <= promptLimit
    ensures |PackedPromptOf(messages, systemLimit, promptLimit).prompt| <= promptLimit
  {
  }

  /**
   * Contiguity: the history blocks split into an oldest dropped run, the system slot and the
   * prompt slot, in chronological order and without splitting a block.
   */
  lemma HistorySlotsPartition(messages: seq<Message>, systemLimit: nat, promptLimit: nat)
    ensures var blocks := HistoryBlocks(messages);
      var dropped := |blocks| - |SystemSlot(messages, systemLimit, promptLimit)| - |PromptSlot(messages, promptLimit)|;
      && dropped >= 0
      && blocks == blocks[..dropped] + SystemSlot(messages, systemLimit, promptLimit) + PromptSlot(messages, promptLimit)
  {
    var blocks := HistoryBlocks(messages);
    var k := FitSuffixStart(blocks, promptLimit);
    var remaining := RemainingSystemLimit(|FixedSystemPrompt(messages, systemLimit)|, systemLimit);
    var s := SystemSlotStart(blocks, promptLimit, remaining);
    assert SystemSlot(messages, systemLimit, promptLimit) == blocks[s..k];
    assert PromptSlot(messages, promptLimit) == blocks[k..];
    SliceThreeWays(blocks, SystemSlot(messages, systemLimit, promptLimit), PromptSlot(messages, promptLimit), s, k);
  }

  lemma SliceThreeWays<T>(xs: seq<T>, middle: seq<T>, last: seq<T>, j: nat, k: nat)
    requires j <= k <= |xs| && middle == xs[j..k] && last == xs[k..]
    ensures var dropped := |xs| - |middle| - |last|;
      && dropped >= 0
      && xs == xs[..dropped] + middle + last
  {
    assert |xs| - |middle| - |last| == j;
    assert xs == xs[..j] + xs[j..k] + xs[k..];
  }

  /** Recency: the prompt slot is the longest suffix of the history that fits the prompt budget. */
  lemma PromptSlotIsLongestFit(messages: seq<Message>, promptLimit: nat, j: nat)
    requires var blocks := HistoryBlocks(messages);
      j <= |blocks| && |Concat(blocks[j..])| <= promptLimit
    ensures |HistoryBlocks(messages)| - j <= |PromptSlot(messages, promptLimit)|
  {
    FitSuffixStartLongest(HistoryBlocks(messages), promptLimit, j);
  }

  /** The system slot fits the remaining system budget, and it is empty when that budget is 0. */
  lemma SystemSlotFits(blocks: seq<string>, promptLimit: nat, remaining: nat)
    ensures var k := FitSuffixStart(blocks, promptLimit);
      var j := SystemSlotStart(blocks, promptLimit, remaining);
      && |Concat(blocks[j..k])| <= remaining
      && (remaining == 0 ==> j == k)
  {
    var k := FitSuffixStart(blocks, promptLimit);
    var j := SystemSlotStart(blocks, promptLimit, remaining);
    if remaining > 0 {
      assert blocks[..k][j..] == blocks[j..k];
    }
  }

  /** The system slot is the longest run right before the prompt slot that fits the remaining system budget. */
  lemma SystemSlotIsLongestFit(blocks: seq<string>, promptLimit: nat, remaining: nat, j: nat)
    requires remaining > 0 && j <= FitSuffixStart(blocks, promptLimit)
    requires |Concat(blocks[j..FitSuffixStart(blocks, promptLimit)])| <= remaining
    ensures SystemSlotStart(blocks, promptLimit, remaining) <= j
  {
    var k := FitSuffixStart(blocks, promptLimit);
    assert blocks[..k][j..] == blocks[j..k];
    FitSuffixStartLongest(blocks[..k], remaining, j);
  }

  /**
   * The system bound the code gives: the fixed part is at most `systemLimit` long, the spilled
   * history at most the remaining budget, so `system_prompt` is at most `systemLimit` when only
   * one part is present and at most `systemLimit + |Separator| - 4` when both are.
   */
  lemma SystemPromptBound(messages: seq<Message>, systemLimit: nat, promptLimit: nat)
    ensures var fixed := FixedSystemPrompt(messages, systemLimit);
      var history := Trim(Concat(SystemSlot(messages, systemLimit, promptLimit)));
      var sp := PackedPromptOf(messages, systemLimit, promptLimit).system_prompt;
      && |fixed| <= systemLimit
      && |history| <= RemainingSystemLimit(|fixed|, systemLimit)
      && (fixed == [] || history == [] ==> |sp| <= systemLimit)
      && |sp| <= systemLimit + |Separator| - SeparatorReserve
  {
    var fixed := FixedSystemPrompt(messages, systemLimit);
    SystemSlotFits(HistoryBlocks(messages), promptLimit, RemainingSystemLimit(|fixed|, systemLimit));
    var history := Trim(Concat(SystemSlot(messages, systemLimit, promptLimit)));
    assert |history| <= RemainingSystemLimit(|fixed|, systemLimit);
    JoinSystemPromptLength(fixed, history, systemLimit);
  }

  lemma JoinSystemPromptLength(fixed: string, history: string, systemLimit: nat)
    requires |fixed| <= systemLimit && |history| <= RemainingSystemLimit(|fixed|, systemLimit)
    ensures fixed == [] || history == [] ==> |JoinSystemPrompt(fixed, history)| <= systemLimit
    ensures |JoinSystemPrompt(fixed, history)| <= systemLimit + |Separator| - SeparatorReserve
  {
    assert |Separator| == 29;
  }

  /**
   * The separator appears exactly when both trimmed parts are non-empty; otherwise
   * `system_prompt` is whichever part is non-empty, or "". The fixed part always leads.
   */
  lemma SeparatorPlacement(messages: seq<Message>, systemLimit: nat, promptLimit: nat)
    ensures var fixed := FixedSystemPrompt(messages, systemLimit);
      var history := Trim(Concat(SystemSlot(messages, systemLimit, promptLimit)));
      var sp := PackedPromptOf(messages, systemLimit, promptLimit).system_prompt;
      && (fixed != [] && history != [] ==> sp == fixed + Separator + history)
      && (fixed != [] && history == [] ==> sp == fixed)
      && (fixed == [] ==> sp == history)
      && fixed <= sp
      && (sp == [] <==> fixed == [] && history == [])
  {
    var fixed := FixedSystemPrompt(messages, systemLimit);
    var history := Trim(Concat(SystemSlot(messages, systemLimit, promptLimit)));
    assert PackedPromptOf(messages, systemLimit, promptLimit).system_prompt == JoinSystemPrompt(fixed, history);
    JoinSystemPromptCases(fixed, history);
  }

  lemma JoinSystemPromptCases(fixed: string, history: string)
    ensures var sp := JoinSystemPrompt(fixed, history);
      && (fixed != [] && history != [] ==> sp == fixed + Separator + history)
      && (fixed != [] && history == [] ==> sp == fixed)
      && (fixed == [] ==> sp == history)
      && fixed <= sp
      && (sp == [] <==> fixed == [] && history == [])
  {
    if fixed != [] && history != [] {
      assert fixed + Separator + history == fixed + (Separator + history);
    }
  }

  /** An empty message list packs to two empty strings. */
  lemma EmptyMessagesPack(messages: seq<Message>, systemLimit: nat, promptLimit: nat)
    requires messages == []
    ensures PackedPromptOf(messages, systemLimit, promptLimit) == PackedPrompt("", "")
  {
    var none: seq<string> := [];
    assert HistoryBlocks(messages) == none;
    assert Concat(none) == "";
    assert FitSuffixStart(none, promptLimit) == 0;
    assert Trim("") == "";
    assert FixedSystemPrompt(messages, systemLimit) == "";
    assert SystemSlot(messages, systemLimit, promptLimit) == none;
    assert PromptSlot(messages, promptLimit) == none;
  }

  /** When the whole history fits the prompt budget, all of it goes to the prompt and none to `system_prompt`. */
  lemma AllHistoryFitsPrompt(messages: seq<Message>, systemLimit: nat, promptLimit: nat)
    requires |Concat(HistoryBlocks(messages))| <= promptLimit
    ensures PackedPromptOf(messages, systemLimit, promptLimit)
      == PackedPrompt(FixedSystemPrompt(messages, systemLimit), Trim(Concat(HistoryBlocks(messages))))
  {
    var blocks := HistoryBlocks(messages);
    assert blocks[0..] == blocks;
    FitSuffixStartIs(blocks, promptLimit, 0);
    assert blocks[..0] == [];
    assert FitSuffixStart([], RemainingSystemLimit(|FixedSystemPrompt(messages, systemLimit)|, systemLimit)) == 0;
    assert Trim("") == "";
  }

  /** Trimming a text that has non-blank ends followed by whitespace gives the text. */
  lemma {:induction false} TrimTrailing(x: string, w: string)
    requires x != [] && !IsWhitespace(x[0]) && !IsWhitespace(x[|x| - 1]) && AllWhitespace(w)
    ensures Trim(x + w) == x
    decreases |w|
  {
    if w == [] {
      assert x + w == x;
      TrimOfTrimmed(x);
    } else {
      var n := |w| - 1;
      assert x + w == (x + w[..n]) + [w[n]];
      assert (x + w)[0] == x[0];
      assert TrimStart(x + w) == x + w;
      assert (x + w)[..|x + w| - 1] == x + w[..n];
      TrimTrailing(x, w[..n]);
      assert (x + w[..n])[0] == x[0];
      assert TrimStart(x + w[..n]) == x + w[..n];
    }
  }

  /** The blocks of a conversation of a system message, a user turn, an assistant turn and a user turn. */
  lemma ConversationBlocks(sys: string, u1: string, a1: string, u2: string)
    ensures var ms := [Message("system", Some(sys)), Message("user", Some(u1)), Message("assistant", Some(a1)), Message("user", Some(u2))];
      && SystemBlock(ms) == "System: " + sys + "\n\n"
      && HistoryBlocks(ms) == ["Human: " + u1 + "\n\n", "Assistant: " + a1 + "\n\n", "Human: " + u2 + "\n\n"]
  {
    var a, b, c, d := Message("system", Some(sys)), Message("user", Some(u1)), Message("assistant", Some(a1)), Message("user", Some(u2));
    RolesDiffer();
    var s1, s2, s3 := [a], [a, b], [a, b, c];
    assert s1 == [] + [a] && s2 == s1 + [b] && s3 == s2 + [c] && [a, b, c, d] == s3 + [d];
    BlocksSnoc([], a);
    BlocksSnoc(s1, b);
    BlocksSnoc(s2, c);
    BlocksSnoc(s3, d);
    var system := "System: " + sys + "\n\n";
    assert SystemPart(a) == system && HistoryPart(a) == [];
    assert SystemPart(b) == "" && SystemPart(c) == "" && SystemPart(d) == "";
    assert SystemBlock(s1) == system;
    assert SystemBlock(s2) == system;
    assert SystemBlock(s3) == system;
    var h1, h2, h3 := "Human: " + u1 + "\n\n", "Assistant: " + a1 + "\n\n", "Human: " + u2 + "\n\n";
    assert HistoryPart(b) == [h1] && HistoryPart(c) == [h2] && HistoryPart(d) == [h3];
    assert HistoryBlocks(s1) == [];
    assert HistoryBlocks(s2) == [h1];
    assert HistoryBlocks(s3) == [h1, h2];
  }

  lemma RolesDiffer()
    ensures "system" != "user" && "system" != "assistant" && "user" != "assistant"
  {
    assert "system"[0] != "user"[0] && "system"[0] != "assistant"[0] && "user"[0] != "assistant"[0];
  }

  /** Both blocks of `ms + [m]`, one message at a time. */
  lemma BlocksSnoc(ms: seq<Message>, m: Message)
    ensures SystemBlock(ms + [m]) == SystemBlock(ms) + SystemPart(m)
    ensures HistoryBlocks(ms + [m]) == HistoryBlocks(ms) + HistoryPart(m)
  {
    SystemBlockSnoc(ms, m);
    HistoryBlocksSnoc(ms, m);
  }

  lemma ConcatThree(x: string, y: string, z: string)
    ensures Concat([x, y, z]) == x + y + z
  {
    assert Concat([z]) == z by { assert [z][1..] == []; }
    assert Concat([y, z]) == y + z by { assert [y, z][1..] == [z]; }
    assert Concat([x, y, z]) == x + (y + z) by { assert [x, y, z][1..] == [y, z]; }
    AppendAssoc(x, y, z);
  }

  /**
   * A conversation that fits both budgets: the system text becomes `system_prompt` and the three
   * turns become the prompt, each without the trailing blank line, when the system text and the
   * last turn end in a non-blank character.
   */
  lemma ConversationPacks(sys: string, u1: string, a1: string, u2: string, systemLimit: nat, promptLimit: nat)
    requires sys != [] && !IsWhitespace(sys[|sys| - 1]) && u2 != [] && !IsWhitespace(u2[|u2| - 1])
    requires |sys| + 10 <= systemLimit && |u1| + |a1| + |u2| + 31 <= promptLimit
    ensures PackedPromptOf(
      [Message("system", Some(sys)), Message("user", Some(u1)), Message("assistant", Some(a1)), Message("user", Some(u2))],
      systemLimit, promptLimit)
      == PackedPrompt("System: " + sys, ("Human: " + u1 + "\n\n") + ("Assistant: " + a1 + "\n\n") + ("Human: " + u2))
  {
    var h1, h2, last := "Human: " + u1 + "\n\n", "Assistant: " + a1 + "\n\n", "Human: " + u2;
    var fixed, text := "System: " + sys, h1 + h2 + last;
    TrimBlankLine(fixed, sys);
    assert text == (h1 + h2) + last;
    TrimBlankLine(text, u2);
    var ms := [Message("system", Some(sys)), Message("user", Some(u1)), Message("assistant", Some(a1)), Message("user", Some(u2))];
    ConversationBlocks(sys, u1, a1, u2);
    var blocks := HistoryBlocks(ms);
    assert blocks == [h1, h2, last + "\n\n"];
    ConcatThree(h1, h2, last + "\n\n");
    AppendAssoc(h1 + h2, last, "\n\n");
    assert Concat(blocks) == text + "\n\n";
    AllHistoryFitsPrompt(ms, systemLimit, promptLimit);
    assert FixedSystemPrompt(ms, systemLimit) == fixed;
  }

  /** A text that starts with a letter and ends like the non-blank `tail` trims to itself once a blank line is added. */
  lemma TrimBlankLine(x: string, tail: string)
    requires |x| >= |tail| > 0 && x[|x| - |tail|..] == tail && !IsWhitespace(tail[|tail| - 1])
    requires 'A' <= x[0] <= 'Z'
    ensures Trim(x + "\n\n") == x
  {
    assert x[|x| - 1] == tail[|tail| - 1];
    assert AllWhitespace("\n\n");
    TrimTrailing(x, "\n\n");
  }

  /**
   * A system message and one user turn that does not fit the prompt budget but fits what is left
   * of the system budget: the turn is spilled into `system_prompt` after the separator, and the
   * prompt is empty.
   */
  lemma SystemSpill(sys: string, u: string, systemLimit: nat, promptLimit: nat)
    requires sys != [] && !IsWhitespace(sys[|sys| - 1]) && u != [] && !IsWhitespace(u[|u| - 1])
    requires promptLimit < |u| + 9 && |sys| + |u| + 21 <= systemLimit
    ensures PackedPromptOf([Message("system", Some(sys)), Message("user", Some(u))], systemLimit, promptLimit)
      == PackedPrompt(("System: " + sys) + Separator + ("Human: " + u), "")
  {
    var fixed, turn := "System: " + sys, "Human: " + u;
    TrimBlankLine(fixed, sys);
    TrimBlankLine(turn, u);
    var ms := [Message("system", Some(sys)), Message("user", Some(u))];
    var block := turn + "\n\n";
    SpillBlocks(sys, u);
    assert FixedSystemPrompt(ms, systemLimit) == fixed;
    SpillSlots(ms, block, fixed, systemLimit, promptLimit);
    PackedPromptFrom(ms, systemLimit, promptLimit, fixed, [block], []);
    SlotsOfOneBlock(block, promptLimit, |block|);
    assert Trim(Concat([])) == "" by { assert Trim("") == ""; }
    JoinSystemPromptCases(fixed, turn);
  }

  lemma SpillBlocks(sys: string, u: string)
    ensures var ms := [Message("system", Some(sys)), Message("user", Some(u))];
      && SystemBlock(ms) == "System: " + sys + "\n\n"
      && HistoryBlocks(ms) == ["Human: " + u + "\n\n"]
  {
    var a, b := Message("system", Some(sys)), Message("user", Some(u));
    RolesDiffer();
    BlocksSnoc([], a);
    BlocksSnoc([a], b);
    assert [] + [a] == [a] && [a] + [b] == [a, b];
  }

  lemma SpillSlots(ms: seq<Message>, block: string, fixed: string, systemLimit: nat, promptLimit: nat)
    requires HistoryBlocks(ms) == [block] && FixedSystemPrompt(ms, systemLimit) == fixed
    requires promptLimit < |block| <= RemainingSystemLimit(|fixed|, systemLimit)
    ensures SystemSlot(ms, systemLimit, promptLimit) == [block] && PromptSlot(ms, promptLimit) == []
  {
    SlotsOfOneBlock(block, promptLimit, RemainingSystemLimit(|fixed|, systemLimit));
  }

  /** The packer's answer assembled from its three parts. */
  lemma PackedPromptFrom(ms: seq<Message>, systemLimit: nat, promptLimit: nat, fixed: string, spilled: seq<string>, kept: seq<string>)
    requires FixedSystemPrompt(ms, systemLimit) == fixed
    requires SystemSlot(ms, systemLimit, promptLimit) == spilled && PromptSlot(ms, promptLimit) == kept
    ensures PackedPromptOf(ms, systemLimit, promptLimit) == PackedPrompt(JoinSystemPrompt(fixed, Trim(Concat(spilled))), Trim(Concat(kept)))
  {
  }

  /**
   * The separator is longer than the room reserved for it, so `system_prompt` can exceed the system
   * limit: with a system limit of 40, a prompt limit of 0 and the messages [system "S", user "U"],
   * the result is "System: S", the separator and "Human: U", 46 characters.
   */
  lemma SystemPromptCanExceedLimit(sys: string, u: string)
    requires sys == "S" && u == "U"
    ensures |PackedPromptOf([Message("system", Some(sys)), Message("user", Some(u))], 40, 0).system_prompt| == 46
  {
    assert |"System: " + sys| == 9 && |"Human: " + u| == 8 && |Separator| == 29;
    assert !IsWhitespace(sys[0]) && !IsWhitespace(u[0]);
    SystemSpill(sys, u, 40, 0);
  }

  /** A single block that does not fit the prompt budget but fits `remaining` is spilled whole. */
  lemma SlotsOfOneBlock(block: string, promptLimit: nat, remaining: nat)
    requires promptLimit < |block| <= remaining
    ensures FitSuffixStart([block], promptLimit) == 1
    ensures SystemSlotStart([block], promptLimit, remaining) == 0
    ensures [block][0..1] == [block] && [block][1..] == [] && Concat([block]) == block
  {
    var blocks := [block];
    assert blocks[1..] == [];
    assert blocks[0..] == blocks;
    assert Concat(blocks) == block + Concat([]);
    FitSuffixStartIs(blocks, promptLimit, 1);
    assert blocks[..1] == blocks;
    FitSuffixStartIs(blocks, remaining, 0);
  }

  // ---------------------------------------------------------------------------
  // Streaming: cumulative output to deltas
  // ---------------------------------------------------------------------------

  /**
   * One item of fal's event stream. `output` is the event's output when it is a string, `partial`
   * its partial flag when it is a boolean, `error` the JSON text of a truthy error field; a null
   * event has all three absent. `Broken` is the stream throwing instead of yielding.
   */
  datatype StreamEvent =
    | Event(output: Option<string>, partial: Option<bool>, error: Option<string>)
    | Broken(details: string)

  /** One `data:` line written to the client. */
  datatype StreamWrite =
    | ContentChunk(content: string, stop: bool)   // delta {content}, finish_reason "stop" or null
    | ErrorChunk(error: string)                   // finish_reason "error", content "Fal Stream Error: " + error
    | ProxyError(details: string)                 // {error: {message: "Stream processing error", type: "proxy_error", details}}
    | Done                                        // [DONE]

  /** The text to send for a new cumulative output, given the previously seen one. */
  function Delta(previous: string, current: string): (d: string)
    ensures previous <= current ==> previous + d == current
    ensures !(previous <= current) ==> d == current
  {
    if previous <= current then current[|previous|..] else current
  }

  function CurrentOutput(e: StreamEvent): string {
    match e
    case Event(output, _, _) => output.GetOr("")
    case Broken(_) => ""
  }

  /** The chunk, if any, written for a normal event after the output `previous`. */
  function Emitted(previous: string, e: StreamEvent): seq<StreamWrite>
    requires e.Event?
  {
    var delta := Delta(previous, CurrentOutput(e));
    var isPartial := e.partial.GetOr(true);
    if delta != "" || !isPartial then [ContentChunk(delta, !isPartial)] else []
  }

  /** What the stream handler writes for `events`, having last seen the output `previous`. */
  function StreamWrites(events: seq<StreamEvent>, previous: string): seq<StreamWrite> {
    if events == [] then [Done]
    else
      match events[0]
      case Broken(details) => [ProxyError(details), Done]
      case Event(_, _, error) =>
        if error.Some? then [ErrorChunk(error.value), Done]
        else Emitted(previous, events[0]) + StreamWrites(events[1..], CurrentOutput(events[0]))
  }

  /** The error the handler rethrows after writing the proxy error, if the stream broke. */
  function StreamFailure(events: seq<StreamEvent>): Option<string> {
    if events == [] then None
    else
      match events[0]
      case Broken(details) => Some(details)
      case Event(_, _, error) => if error.Some? then None else StreamFailure(events[1..])
  }

  /** The loop of `handleStreamResponse`, with every `res.write` recorded in `writes`. */
  method HandleStreamResponse(events: seq<StreamEvent>) returns (writes: seq<StreamWrite>, rethrown: Option<string>)
    ensures writes == StreamWrites(events, "")
    ensures rethrown == StreamFailure(events)
  {
    var previousOutput := "";
    writes := [];
    rethrown := None;
    for n := 0 to |events|
      invariant writes + StreamWrites(events[n..], previousOutput) == StreamWrites(events, "")
      invariant StreamFailure(events[n..]) == StreamFailure(events)
      invariant rethrown == None
    {
      StreamStep(events, n, previousOutput);
      var event := events[n];
      if event.Broken? {
        writes := writes + [ProxyError(event.details), Done];
        rethrown := Some(event.details);
        return;
      }
      var currentOutput := if event.output.Some? then event.output.value else "";
      var isPartial := if event.partial.Some? then event.partial.value else true;
      if event.error.Some? {
        writes := writes + [ErrorChunk(event.error.value)];
        assert writes + [Done] == StreamWrites(events, "");
        break;
      }
      ghost var previous := previousOutput;
      var deltaContent := "";
      if previousOutput <= currentOutput {
        deltaContent := currentOutput[|previousOutput|..];
      } else if |currentOutput| > 0 {
        deltaContent := currentOutput;
        previousOutput := "";
      }
      previousOutput := currentOutput;
      ghost var before := writes;
      if deltaContent != "" || !isPartial {
        writes := writes + [ContentChunk(deltaContent, !isPartial)];
      }
      EmittedAppend(before, writes, previous, event, deltaContent, isPartial, StreamWrites(events[n + 1..], currentOutput));
    }
    writes := writes + [Done];
  }

  /** One step of `StreamWrites` at position `n`. */
  lemma StreamStep(events: seq<StreamEvent>, n: nat, previous: string)
    requires n < |events|
    ensures events[n].Broken? ==>
      StreamWrites(events[n..], previous) == [ProxyError(events[n].details), Done]
      && StreamFailure(events[n..]) == Some(events[n].details)
    ensures events[n].Event? && events[n].error.Some? ==>
      StreamWrites(events[n..], previous) == [ErrorChunk(events[n].error.value), Done]
      && StreamFailure(events[n..]) == None
    ensures events[n].Event? && events[n].error.None? ==>
      StreamWrites(events[n..], previous) == Emitted(previous, events[n]) + StreamWrites(events[n + 1..], CurrentOutput(events[n]))
      && StreamFailure(events[n..]) == StreamFailure(events[n + 1..])
  {
    assert events[n..][0] == events[n];
    assert events[n..][1..] == events[n + 1..];
  }

  /** The handler's inline delta and emission code agrees with `Emitted`. */
  lemma EmittedAppend(before: seq<StreamWrite>, after: seq<StreamWrite>, previous: string, e: StreamEvent,
                      deltaContent: string, isPartial: bool, tail: seq<StreamWrite>)
    requires e.Event? && isPartial == e.partial.GetOr(true)
    requires previous <= CurrentOutput(e) ==> deltaContent == CurrentOutput(e)[|previous|..]
    requires !(previous <= CurrentOutput(e)) ==> deltaContent == (if |CurrentOutput(e)| > 0 then CurrentOutput(e) else "")
    requires after == before + (if deltaContent != "" || !isPartial then [ContentChunk(deltaContent, !isPartial)] else [])
    ensures after + tail == before + (Emitted(previous, e) + tail)
  {
    var cur := CurrentOutput(e);
    if previous <= cur {
      assert deltaContent == Delta(previous, cur);
    } else {
      assert deltaContent == Delta(previous, cur);
    }
    assert after == before + Emitted(previous, e);
  }

  /** The client-visible text of a run of writes: the concatenated chunk contents. */
  function StreamedText(writes: seq<StreamWrite>): string {
    if writes == [] then ""
    else (if writes[0].ContentChunk? then writes[0].content else "") + StreamedText(writes[1..])
  }

  lemma {:induction false} StreamedTextAppend(a: seq<StreamWrite>, b: seq<StreamWrite>)
    ensures StreamedText(a + b) == StreamedText(a) + StreamedText(b)
  {
    if a == [] {
      assert a + b == b;
    } else {
      assert (a + b)[1..] == a[1..] + b;
      StreamedTextAppend(a[1..], b);
    }
  }

  /** Every event is a normal one whose output extends the one before it, starting from `previous`. */
  predicate PrefixMonotone(events: seq<StreamEvent>, previous: string) {
    events == [] ||
      (events[0].Event? && events[0].error.None? && previous <= CurrentOutput(events[0])
       && PrefixMonotone(events[1..], CurrentOutput(events[0])))
  }

  /** The output of the last event, or `previous` when there is none. */
  function LastOutput(events: seq<StreamEvent>, previous: string): string {
    if events == [] then previous else LastOutput(events[1..], CurrentOutput(events[0]))
  }

  /** Delta rule: for prefix-monotone outputs, the concatenated deltas are the last output. */
  lemma {:induction false} DeltasReassemble(events: seq<StreamEvent>, previous: string)
    requires PrefixMonotone(events, previous)
    ensures previous + StreamedText(StreamWrites(events, previous)) == LastOutput(events, previous)
  {
    if events == [] {
    } else {
      var e := events[0];
      var current := CurrentOutput(e);
      var d := Delta(previous, current);
      var tail := StreamWrites(events[1..], current);
      DeltasReassemble(events[1..], current);
      assert StreamWrites(events, previous) == Emitted(previous, e) + tail;
      StreamedTextAppend(Emitted(previous, e), tail);
      assert StreamedText(Emitted(previous, e)) == d by {
        assert Emitted(previous, e) == [] || Emitted(previous, e)[1..] == [];
      }
      assert previous + d == current;
      AppendAssoc(previous, d, StreamedText(tail));
    }
  }

  /** [DONE] comes last and only there, and an error chunk or proxy error can only come right before it. */
  predicate EndsWithDone(w: seq<StreamWrite>) {
    && |w| >= 1 && w[|w| - 1] == Done
    && (forall i :: 0 <= i < |w| - 1 ==> !w[i].Done?)
    && (forall i :: 0 <= i < |w| && (w[i].ErrorChunk? || w[i].ProxyError?) ==> i == |w| - 2)
  }

  /**
   * The handler always ends with [DONE] and writes it once; before it, an error event produces
   * the last chunk written.
   */
  lemma {:induction false} StreamEndsWithDone(events: seq<StreamEvent>, previous: string)
    ensures EndsWithDone(StreamWrites(events, previous))
  {
    if events != [] && events[0].Event? && events[0].error.None? {
      var e := events[0];
      var current := CurrentOutput(e);
      var em, tail := Emitted(previous, e), StreamWrites(events[1..], current);
      assert StreamWrites(events, previous) == em + tail;
      StreamEndsWithDone(events[1..], current);
      ChunkBeforeDone(em, tail);
    }
  }

  lemma ChunkBeforeDone(em: seq<StreamWrite>, tail: seq<StreamWrite>)
    requires |em| <= 1 && (em != [] ==> em[0].ContentChunk?) && EndsWithDone(tail)
    ensures EndsWithDone(em + tail)
  {
    var w := em + tail;
    forall i | 0 <= i < |w| && !w[i].ContentChunk?
      ensures i >= |em| && w[i] == tail[i - |em|]
    {
    }
  }

  /** An error event writes one error chunk and [DONE], and nothing later in the stream is read. */
  lemma {:induction false} ErrorStopsStream(events: seq<StreamEvent>, previous: string, err: string, rest1: seq<StreamEvent>, rest2: seq<StreamEvent>, output: Option<string>, partial: Option<bool>)
    requires forall i :: 0 <= i < |events| ==> events[i].Event? && events[i].error.None?
    ensures var x := Event(output, partial, Some(err));
      && StreamWrites(events + [x] + rest1, previous) == StreamWrites(events + [x] + rest2, previous)
      && var w := StreamWrites(events + [x] + rest1, previous);
         |w| >= 2 && w[|w| - 2..] == [ErrorChunk(err), Done]
  {
    var x := Event(output, partial, Some(err));
    if events == [] {
      assert events + [x] + rest1 == [x] + rest1;
      assert events + [x] + rest2 == [x] + rest2;
    } else {
      var current := CurrentOutput(events[0]);
      assert (events + [x] + rest1)[1..] == events[1..] + [x] + rest1;
      assert (events + [x] + rest2)[1..] == events[1..] + [x] + rest2;
      ErrorStopsStream(events[1..], current, err, rest1, rest2, output, partial);
    }
  }

  /**
   * Stream emission: for a normal event, a chunk is written iff the delta is non-empty or the
   * event is not partial, and its finish reason is "stop" exactly when `partial` is false; a
   * missing `partial` counts as true and a missing output as "".
   */
  lemma EmissionRule(previous: string, output: Option<string>, partial: Option<bool>, rest: seq<StreamEvent>)
    ensures var e := Event(output, partial, None);
      var current := output.GetOr("");
      var w := StreamWrites([e] + rest, previous);
      var tail := StreamWrites(rest, current);
      && (Delta(previous, current) != "" || partial == Some(false) ==>
            w == [ContentChunk(Delta(previous, current), partial == Some(false))] + tail)
      && (Delta(previous, current) == "" && partial != Some(false) ==> w == tail)
  {
    assert ([Event(output, partial, None)] + rest)[1..] == rest;
  }

  // ---------------------------------------------------------------------------
  // Non-streamed results
  // ---------------------------------------------------------------------------

  /**
   * A fal any-llm result: `output`, the JSON text of a truthy `error`, a truthy `reasoning`
   * string, the request id.
   */
  datatype FalResult = FalResult(output: Option<string>, error: Option<string>, reasoning: Option<string>)

  /** The parts of the chat completion that do not depend on the clock; usage counts are null. */
  datatype ChatCompletion = ChatCompletion(model: string, content: string, finishReason: string, falReasoning: Option<string>)

  /** `handleNonStreamResponse` after `fal.subscribe` resolved with `result`. */
  function HandleNonStreamResponse(result: FalResult, model: string): (r: Result<ChatCompletion, string>)
    ensures r.Failure? <==> result.error.Some?
    ensures r.Failure? ==> r.error == "Fal-ai error: " + result.error.value
    ensures r.Success? ==>
      && r.value.model == model
      && r.value.content == result.output.GetOr("")
      && r.value.finishReason == "stop"
      && (r.value.falReasoning.Some? <==> result.reasoning.Some? && result.reasoning.value != "")
      && (r.value.falReasoning.Some? ==> r.value.falReasoning == result.reasoning)
  {
    if result.error.Some? then Failure("Fal-ai error: " + result.error.value)
    else
      var reasoning := if result.reasoning.Some? && result.reasoning.value != "" then result.reasoning else None;
      Success(ChatCompletion(model, result.output.GetOr(""), "stop", reasoning))
  }

  /** `isChatModel`: membership in the chat model catalog. */
  predicate IsChatModel(model: string, catalog: seq<string>) {
    model in catalog
  }
}
