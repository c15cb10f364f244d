# ds2api: a verified model

This project models the parts of ds2api whose correctness is not visible from any one function, and
proves what those parts promise. Code that changes state step by step is modelled by classes and
methods with loops, each proved equal to a function of its inputs and old state; what the code is
for is then proved about those functions, over every input, every run and every interleaving.

`dafny verify dfyconfig.toml` checks everything. Source cells are paths in the ds2api repository.

**Streaming tool sieve** (`CodeFence`, `FenceLaws`, `SieveModel`, `Sieve`, `SieveConservation`,
`SieveRuns`, `SieveReference`, `SieveRefinement`, `SieveCuts`, `SieveChunks`, `SieveSteady`,
`SieveFences`, `SieveFenced`, `SieveTrims`, `SieveLimits`). A reply arrives in arbitrary chunks; text that may be a tool-call block is held
back, complete blocks are removed and their calls delivered, everything else is released. The block
parser is an arbitrary function. Proved: nothing but recognised blocks, with a complete code fence
around them, is ever removed; the loop terminates and leaves nothing it could still process.
`SieveReference.Reply` says of a whole text what is shown and which blocks are recognised,
back-ticks included. A run of back-ticks at a line start opens a fence, closes one that is no longer,
or opens one inside it; a complete block behind a closed fence is recognised and one inside an open
fence is not. The tracker misses a fence on the very first line of a reply. The sieve shows and recognises just that, however the text is cut, with three
exceptions of the code, each with a condition on the text and the chunk boundaries and an input:

- A bare `<invoke>` that is closed before a wrapper opens. Among the texts without back-ticks,
  exactly those in which the reader meets none (`SieveSteady.Steady`) do not depend on their chunks.
- Code fences. A blank piece released alone is not read by the fence tracker, and a fence around a
  block is removed only if its closing part has arrived with the block. Where no blank text between
  two places where a piece may end moves the tracker (`SieveCuts.Level`), and no chunk boundary
  divides a removed block from its closing fence, fenced text does not depend on its chunks. This is
  sufficient; exact are the conditions for one blank piece to be misread, for one fence to be trimmed
  otherwise, and for all of a text to be shown although one blank piece was misread. A text whose
  tags are all hidden by a fence at the start of a line, the first of them with a complete block, is
  shown otherwise if the text before that line and its line break arrive one after the other.
- Of several blocks completed by one chunk only the last one's calls are delivered: all are, exactly
  if no chunk holds the last characters of two recognised blocks.

**Proof of work** (`Keccak`, `Sponge`, `HexDigits`, `ProofOfWork`). The unrolled permutation is rounds 1 to 23 of
the step mappings of FIPS 202, sections 3.2.1 to 3.2.5, with the offsets and round constants the
standard generates. The hash absorbs the padded message, the padding is injective, and the search
with its pre-absorbed prefix and hand-written decimal digits compares the plain hash of prefix and
nonce: it returns the least nonce that solves the challenge, or reports that there is none. A nonce
solves it if the hash of a text is the target that reads, split at its last two underscores, as the
salt, the expiry and the nonce.

**Account pool** (`PoolModel`, `AccountPool`, `PoolSafety`, `PoolWakeup`, `RequestModel`,
`RequestSlots`, `RequestLaws`). Every
critical section is one atomic step. Over all interleavings the limits hold, the queue is a
permutation of the accounts in order of last use, and an untargeted caller gets the least recently
used eligible account. New limits keep this exactly if what is in use and waiting fits them. From a
new pool on, attempts without a target, releases and resets never leave a caller queued beside a
free slot that no awake caller will take. Every other step is shown to keep this exactly under a
condition on the state before it (`PoolWakeup.Harmless`), with a run for each way to break it: a
woken caller is cancelled, a woken caller's target is still taken, a raised limit makes room for two
and wakes one. A request whose account switch failed releases its old account a second time: a
release is safe for other requests exactly if the request holds a slot of that account, each failed
switch costs the others at most one slot, and a run shows one freeing a slot in use. What a
request does is a function of what other requests do between its steps, of when it is cancelled and
of which tokens are usable. Every way to fail has its reason at the moment it fails, every account
newly tried was acquired and found unusable, and while nobody else moves a request finds an account,
and a switch another one, exactly if there is an eligible one with a usable token.

**Tool calls as text** (`Markup`, `MarkupScan`, `MarkupLaws`, `MarkupInert`, `ToolCallText`,
`ToolCalls`, `ToolCallNames`, `AttributeLaws`, `ToolCallRoundTrip`, `ToolCallTyped`, `ToolCallLaws`). The nesting scanner finds exactly the first balancing end tag
over visible tags. To the markup parser every rendering of tool calls, whatever their names and
values, reads back as the calls it shows, in order; the calls come back unchanged exactly if each has
parameters, only one if its name looks like a read tool's, and no value holds `]]>` or reads as true,
false, null or a number. What a value is read as is exact too: a text is read as the one value it
writes, in any letter case and between any blanks, and a call with typed arguments comes back with
them. Attributes are read in every way they may be written; repeated parameters are collected in
order; calls are read in wrappers and outside of them, each once.

**Replies with tool calls** (`FencedText`, `FencedLines`, `FenceCuts`, `FencedCalls`, `ToolCallReply`,
`ReplyLaws`, `RenderedCalls`, `RenderedStream`). The parser of a whole reply cuts out fenced lines
first and drops repeated reads of one path last. A closed fence goes with all that is in it but its
CDATA sections; an open one takes everything, even what stands before it. Cutting leaves a rendering alone exactly if no fence opens in a name,
nor in a value that the scan for fences reads as plain lines, because its parameter's name holds a
fence marker. Then the calls shown are read but for repeated reads, all of them exactly if no two read
one path, and they come back unchanged exactly if they are also faithful as above. Streamed through
the sieve in any chunks they are delivered at once and no text is shown. Two inputs show a read that
is lost, and a part of a value that is cut out.

**Chat history store** (`HistoryModel`, `HistoryStore`). Memory, index, and disk with every file
operation free to fail: they stay reconcilable, and any save that succeeds makes the disk equal to
memory, whatever failed before. The list is sorted and trimmed to the newest; revisions grow under
any clock. A started entry stays if fewer stored entries than the limit are as new as the clock or
newer, and only if fewer are newer: a full store and a clock that runs backwards evict it at once.

**Auto-continue pump** (`AutoContinue`, `AutoContinueRuns`). An unfinished reply is continued in
bounded rounds. The output is the in-order concatenation of all lines that are neither blank nor end
marks, with one end mark at the end exactly if the last round had one; each continuation has its
reason in what the upstream said in the round before.

**Claude event stream** (`ClaudeStream`, `ClaudeTrace`, `ClaudeContent`, `ClaudeEndings`). Every finished run emits
the message start, blocks numbered 0, 1, 2, ... that are started, filled and stopped one at a time,
and the two closing events; the deltas add up to the accumulated thinking and text, or to the
detected tool calls in place of the text. Accumulation does not depend on how pieces interleave, and
snapshots of one text, resent or overtaken, leave the longest of them. How a run ends, and with which
error, is read off the first of its inputs that ends one; one ping goes out for each tick.

**Thinking cache** (`ThinkingCache`, `ThinkingCacheLaws`, `ThinkingCacheKeys`, `ThinkingCacheTimes`,
`ThinkingCacheRuns`).
Restoring reasoning keeps the fingerprint of every beginning of the conversation and settles at once.
Two conversations share a key exactly if they go to one model and agree outside system messages and reasoning and in
what each block's type keeps, which of a picture is nothing. What a request stored is restored for
two hours in every conversation that shares its key, whatever other requests store and restore
meanwhile, if they do not overwrite it and no limit is below the number of entries written as late.

**JSON backslash repair** (`JsonRepair`). The repaired text always reads strictly and means what a
lenient reader takes the original to mean; exactly the texts that read strictly are left alone.

`Text` holds byte-string searching with ASCII lowering and `TextLaws` what it means, `Options` a value that may be missing, `Sets`
the size of a subset.

## Model

| member | source | states |
|---|---|---|
| Text.FindVisibleAppend | internal/toolstream/tool_sieve_xml.go:111-141 | a close tag found outside CDATA and comments stays at the same place whatever text arrives later |
| Text.FindVisibleInPrefix | internal/toolstream/tool_sieve_xml.go:111-141 | a close tag found in a longer text is found in every prefix that holds it |
| Text.IndexFrom | internal/toolstream/tool_sieve_xml.go:33-90 | the first case-insensitive occurrence at or after the start, none before it |
| Text.TrimPadded | internal/toolcall/toolcalls_parse_markup.go:88-88 | trimming takes away exactly the blanks around a text |
| TextLaws.LowerPairs | internal/toolstream/tool_sieve_xml.go:33-90 | lowering moves the 26 capitals to their small letters and nothing else |
| TextLaws.SpacesIff | internal/toolcall/toolcalls_parse_markup.go:88-88 | the blanks are the space and the control characters 9 to 13 |
| TextLaws.CommentHides | internal/toolcall/toolcalls_parse_markup.go:260-277 | nothing is seen in a comment, and nothing at all behind one that does not end |
| TextLaws.SectionHides | internal/toolcall/toolcalls_parse_markup.go:260-277 | the same for CDATA sections |
| TextLaws.TrimPast | internal/toolcall/toolcalls_parse_markup.go:88-88 | blanks added around a text do not change what is trimmed out of it |
| CodeFence.Simulate | internal/toolstream/tool_sieve_state.go:100-141 | the byte loop over back-ticks, line starts and the fence stack computes the fence tracker's fold |
| CodeFence.FeedSplit | internal/toolstream/tool_sieve_state.go:79-157 | reading a text at once or in two parts leaves the fence tracker in the same state |
| CodeFence.FeedNoTicks | internal/toolstream/tool_sieve_state.go:100-141 | text without back-ticks opens no fence |
| FenceLaws.FreeKeeps | internal/toolstream/tool_sieve_state.go:100-141 | text without three back-ticks at a line start changes no fence |
| FenceLaws.FenceLineIs | internal/toolstream/tool_sieve_state.go:143-157 | a line that starts with three or more back-ticks opens a fence outside of one, ends one of at most that length, and opens one inside a longer one |
| FenceLaws.ClosedFence | internal/toolstream/tool_sieve_state.go:100-157 | an opener line, lines without a fence and a closer line leave the open fences what they were |
| FenceLaws.FirstLineIsMissed | internal/toolstream/tool_sieve_state.go:79-98 | a fence on the first line of a reply is not seen |
| Sieve.TagsAre | internal/toolstream/tool_sieve_xml.go:16-30 | the listed tags are the wrapper or invoke opener followed by a delimiter, both directions |
| Sieve.EarliestTag | internal/toolstream/tool_sieve_core.go:153-183 | the earliest listed tag at or after the offset, and no tag before it |
| Sieve.FindToolSegmentStart | internal/toolstream/tool_sieve_core.go:153-183 | the search loop over listed tags and fences finds the segment start |
| SieveModel.SegmentStartIsFirst | internal/toolstream/tool_sieve_core.go:153-183 | no tag outside a code fence comes before the segment start, or at all if there is none |
| Sieve.FindCloseOutsideCDATA | internal/toolstream/tool_sieve_xml.go:111-141 | the index loop finds the first visible close tag |
| Sieve.ConsumeCapture | internal/toolstream/tool_sieve_xml.go:33-90 | what a capture decides: wait, release, or a recognised block with prefix and suffix |
| Sieve.ToolSieve.NoteText | internal/toolstream/tool_sieve_state.go:48-53 | released text moves the fence tracker, blank text does not |
| Sieve.ToolSieve.ProcessChunk | internal/toolstream/tool_sieve_core.go:9-88 | the draining loop terminates and produces the state and events of the chunk's specification |
| Sieve.ToolSieve.Flush | internal/toolstream/tool_sieve_core.go:90-135 | waiting calls, then the last block or all buffered text; buffers are empty afterwards |
| SieveConservation.TrimFenceSplits | internal/toolstream/tool_sieve_jsonscan.go:5-27 | trimming removes a complete opening and closing fence, or nothing |
| SieveTrims.RunsCount | internal/toolstream/tool_sieve_jsonscan.go:5-27 | a run of back-ticks counts as a fence mark once for every three of them |
| SieveTrims.FenceGoesIff | internal/toolstream/tool_sieve_jsonscan.go:5-27 | the last fence mark before a block and the next one behind it go exactly if the first opens a fence, only "json" or blanks stand between it and the block, and only line blanks before the other |
| SieveTrims.NoFenceNoneGoes | internal/toolstream/tool_sieve_jsonscan.go:5-27 | without three back-ticks before the block nothing goes |
| SieveConservation.ConsumeSplits | internal/toolstream/tool_sieve_xml.go:33-90 | a complete capture is kept text, at most one removed block with its calls, and the suffix |
| SieveConservation.DrainConserves | internal/toolstream/tool_sieve_core.go:9-88 | one drain splits the buffered text into released text, legitimate removed blocks and what stays buffered |
| SieveRuns.DrainSettles | internal/toolstream/tool_sieve_core.go:9-88 | after every chunk nothing is left that another turn could process |
| SieveRuns.HeldIsTagStart | internal/toolstream/tool_sieve_core.go:137-151 | what is held back by itself is the start of a tag outside of any fence, and nothing else |
| SieveRuns.FlushReleases | internal/toolstream/tool_sieve_core.go:90-135 | the flush after a settled run releases the buffers as they are |
| SieveRuns.RunConserves | internal/toolstream/tool_sieve_core.go:9-88 | over any chunks, released and removed pieces plus the buffers are the input |
| SieveRuns.StreamConserves | internal/toolstream/tool_sieve_core.go:9-135 | for every chunking and parser, the released text is the input with recognised blocks and their fences cut out, nothing else |
| SieveRuns.NothingLost | internal/toolstream/tool_sieve_core.go:9-135 | with a parser that recognises no call, the released text is exactly the input |
| SieveRuns.StreamDeliversLasts | internal/toolstream/tool_sieve_core.go:9-135 | each chunk that completes recognised blocks delivers the calls of its last one |
| SieveRuns.AllDeliveredIff | internal/toolstream/tool_sieve_core.go:9-135 | on any text, all recognised calls are delivered if and only if no chunk completes two recognised blocks |
| SieveReference.ConsumeIsTurn | internal/toolstream/tool_sieve_xml.go:33-90 | for every captured text, fences included, the capture decides what the reference makes of its first block |
| SieveReference.BlockIsStable | internal/toolstream/tool_sieve_xml.go:33-90 | a complete block stays the same block whatever text arrives later, unless that text makes it a bare invoke closed before a wrapper |
| SieveReference.BlockInPrefix | internal/toolstream/tool_sieve_xml.go:33-90 | a block of a longer text that ends in what has arrived is complete already |
| SieveReference.DecidedIff | internal/toolstream/tool_sieve_jsonscan.go:5-27 | later text changes what fence trimming does exactly if the block stands behind an opening fence whose closing part has not arrived and is still to come |
| SieveReference.TurnIsStable | internal/toolstream/tool_sieve_jsonscan.go:5-27 | otherwise a block's shown text, calls and rest stay what they are |
| SieveReference.StraddleIsHeld | internal/toolstream/tool_sieve_xml.go:145-167 | a tag that straddles the end of the text so far starts exactly where text is held back |
| SieveReference.HeldRefines | internal/toolstream/tool_sieve_core.go:137-151 | what is released without a tag is what the reference shows first, in any fence, whatever text arrives later |
| SieveRefinement.BlankIsHeardIff | internal/toolstream/tool_sieve_state.go:48-57 | leaving a blank text unread leaves the fence tracker right exactly if the text is empty, or no back-tick is pending and the line start stays |
| SieveRefinement.HeardIsFed | internal/toolstream/tool_sieve_state.go:48-57 | if every released piece is heard in this sense, the tracker has read exactly the released text |
| SieveCuts.DrainIsHeard | internal/toolstream/tool_sieve_core.go:9-88 | where no blank text between two places where a piece may end moves the tracker, no piece a drain releases is misread, in the rest neither |
| SieveRefinement.DrainRefines | internal/toolstream/tool_sieve_core.go:9-88 | one drain shows what the reference lets be shown already and recognises the blocks that end in what has arrived |
| SieveChunks.RunRefines | internal/toolstream/tool_sieve_core.go:9-88 | over any run, text shown and blocks recognised are the reference's, each block by the chunk that holds its last character |
| SieveChunks.LevelIsHeard | internal/toolstream/tool_sieve_core.go:9-88 | on a text level in this sense, with the chunk ends given, no run misreads a piece |
| SieveChunks.FenceReadsReleased | internal/toolstream/tool_sieve_state.go:48-57 | after any run without an unheard blank piece the tracker is the state of the released text |
| SieveChunks.ChunkingIsInvisible | internal/toolstream/tool_sieve_core.go:9-135 | steady text, with back-ticks where it is level and no fence is divided, is shown and recognised as the whole-text reference says, for every chunking and parser |
| SieveChunks.AllDeliveredIffEndAlone | internal/toolstream/tool_sieve_core.go:9-135 | all of the reference's calls are delivered if and only if no chunk holds the last characters of two recognised blocks |
| SieveSteady.SteadyForAll | internal/toolstream/tool_sieve_xml.go:33-90 | without back-ticks, whether a text is steady depends neither on the parser nor on the tracker |
| SieveSteady.UnsteadyDependsOnChunks | internal/toolstream/tool_sieve_xml.go:33-90 | every unsteady text without back-ticks has two parts for which another text is shown than the reference's |
| SieveSteady.SteadyIff | internal/toolstream/tool_sieve_core.go:9-135 | a text without back-ticks is shown alike for every parser and chunking if and only if it is steady |
| SieveFences.RecognisesIff | internal/toolstream/tool_sieve_core.go:9-88 | a drain with an eager parser recognises something exactly if a tag outside a fence has a complete block behind it |
| SieveFences.LosesTextIff | internal/toolstream/tool_sieve_core.go:9-135 | a stream, in any chunks, shows less than its text exactly if it recognises something |
| SieveFences.LostBlankIff | internal/toolstream/tool_sieve_state.go:48-57 | after a blank piece released alone, reader and sieve each show all of the text exactly unless their own tracker finds a block, so the text shown changes whenever just one of them does |
| SieveFences.LineFenceDependsOnChunks | internal/toolstream/tool_sieve_state.go:48-57 | a text in which a fence at a line start, behind text that is released at once, hides all tags, the first of them with a complete block, is shown otherwise if the line break before the fence arrives alone |
| SieveFenced.FencedHidesTags | internal/toolstream/tool_sieve_core.go:153-183 | no tag in a closed fence, or in text without tags before it, counts |
| SieveFenced.BehindClosedFence | internal/toolstream/tool_sieve_core.go:9-135 | a complete block behind a closed fence is recognised with its calls and cut out, in every chunking covered by SieveChunks.ChunkingIsInvisible |
| SieveFenced.BehindOpenFence | internal/toolstream/tool_sieve_core.go:9-135 | behind an open fence all is shown and nothing is recognised, in every such chunking |
| SieveLimits.TwoBlocksLoseOne | internal/toolstream/tool_sieve_core.go:37-48 | two blocks in one chunk deliver one list of calls, in two chunks both: the concrete loss |
| SieveLimits.LateFenceIsShown | internal/toolstream/tool_sieve_jsonscan.go:5-27 | a closing fence that arrives after its block leaves both parts of the fence in the shown text; one that arrives with it removes them |
| SieveLimits.FencesDependOnChunks | internal/toolstream/tool_sieve_state.go:48-57 | the same fenced text yields no call in two chunks and a call in three |
| Keccak.RoundConstants | pow/deepseek_hash.go:7-14 | the table equals the constants generated by the shift register of FIPS 202 section 3.2.5 |
| Keccak.OffsetsFollowWalk | pow/deepseek_hash.go:62-86 | the rotation offsets are the triangular numbers along the walk of FIPS 202 section 3.2.2 |
| Keccak.WalkVisitsAll | pow/deepseek_hash.go:62-86 | the walk visits every lane but the first |
| Keccak.UsedAmounts | pow/deepseek_hash.go:16-86 | for every amount used, the two shifts of the source are a rotation |
| Keccak.UnrolledTheta | pow/deepseek_hash.go:26-60 | column parities mixed into 25 variables are the step mapping theta |
| Keccak.UnrolledPiRho | pow/deepseek_hash.go:62-86 | the rotated and renamed variables are pi after rho |
| Keccak.UnrolledChi | pow/deepseek_hash.go:88-112 | the row formulas are the step mapping chi |
| Keccak.KeccakF23 | pow/deepseek_hash.go:18-122 | for every state, the loop computes rounds 1 to 23 of iota, chi, pi, rho, theta in place |
| Keccak.TwentyThreeRounds | pow/deepseek_hash.go:18-122 | the permutation is the 23 rounds after the first, in their order |
| Sponge.PadInjective | pow/deepseek_hash.go:125-153 | equal padded messages are equal messages, for all lengths |
| Sponge.PaddingBits | pow/deepseek_hash.go:138-145 | what is appended is, bit for bit, 01 and pad10*1 up to the end of a block |
| Sponge.XorBlockTwice | pow/deepseek_hash.go:125-136 | a block changes the lanes of the rate only, added twice none; what it leaves alone is twice the digest |
| Sponge.HashStateSplit | pow/deepseek_hash.go:125-153 | absorbing whole blocks of a prefix first changes nothing |
| Sponge.DigestLanes | pow/deepseek_pow.go:39-44 | a digest equals a target exactly if four lanes equal the target's words |
| Sponge.AbsorbBlocks | pow/deepseek_hash.go:125-136 | the loop absorbs exactly the whole blocks and returns where the rest starts |
| Sponge.FinalBlock | pow/deepseek_hash.go:138-145 | the last block is the rest padded with 0x06, zeros and 0x80, or 0x86 alone |
| Sponge.DeepSeekHashV1 | pow/deepseek_hash.go:125-153 | the function computes the sponge over the padded message |
| ProofOfWork.DecimalReadsBack | pow/deepseek_pow.go:70-82 | the decimal digits of a nonce read back as the nonce |
| ProofOfWork.NonceLength | pow/deepseek_pow.go:61-82 | a 64-bit nonce has at most 19 digits, so the buffer suffices |
| ProofOfWork.FormatNonce | pow/deepseek_pow.go:70-82 | the backward loop writes exactly the decimal digits |
| ProofOfWork.NonceState | pow/deepseek_pow.go:83-112 | one block or two, whichever the digits need, absorb the padded tail and digits |
| ProofOfWork.AnswerState | pow/deepseek_pow.go:46-117 | the state compared is the state of the plain hash of prefix and decimal digits |
| ProofOfWork.TryNonce | pow/deepseek_pow.go:70-115 | a turn succeeds exactly if the hash of prefix and nonce is the challenge |
| ProofOfWork.Search | pow/deepseek_pow.go:62-117 | the least nonce that solves salt, expiry and target, or none exists below the difficulty, or cancelled first |
| ProofOfWork.SolvePow | pow/deepseek_pow.go:31-118 | malformed challenges are refused exactly; otherwise the least nonce whose text, read as salt, expiry and nonce, hashes to the challenge, or none, or cancelled |
| ProofOfWork.AnswerTextIff | pow/deepseek_pow.go:25-27 | a text is that of prefix and nonce exactly if it reads, split at its last two underscores, as the salt, the expiry and the nonce |
| ProofOfWork.SolvesIff | pow/deepseek_pow.go:31-60 | a nonce solves the challenge exactly if the hash of that text is the target |
| ProofOfWork.HexDecodeIff | pow/deepseek_pow.go:31-44 | exactly the texts that write the bytes, two digits each in either letter case, decode to them |
| PoolModel.Pick | internal/account/pool_acquire.go:74-89 | the first eligible account of the queue, none eligible before it |
| AccountPool.SlotPool.CurrentInUse | internal/account/pool_limits.go:75-81 | the running total is the sum of all counts |
| AccountPool.SlotPool.CanAcquireID | internal/account/pool_limits.go:62-73 | exactly the account and global limit test |
| AccountPool.SlotPool.BumpQueue | internal/account/pool_acquire.go:91-100 | the in-place rotation moves the account to the end |
| AccountPool.SlotPool.TryAcquire | internal/account/pool_acquire.go:74-89 | takes the first eligible account and rotates it, or changes nothing |
| AccountPool.SlotPool.AcquireLocked | internal/account/pool_acquire.go:57-72 | targeted or untargeted acquisition as one atomic step |
| AccountPool.SlotPool.CanQueueLocked | internal/account/pool_waiters.go:3-16 | exactly when a caller may wait |
| AccountPool.SlotPool.AcquireOrQueue | internal/account/pool_acquire.go:23-55 | one locked section of the waiting loop: a slot, a place in the waiters, or neither |
| AccountPool.SlotPool.NotifyWaiterLocked | internal/account/pool_waiters.go:18-25 | wakes the first waiter, if any |
| AccountPool.SlotPool.RemoveWaiterLocked | internal/account/pool_waiters.go:27-36 | removes the caller if queued and says whether it was |
| AccountPool.SlotPool.Release | internal/account/pool_core.go:86-104 | gives back one slot and wakes one waiter, or changes nothing for an idle account |
| AccountPool.SlotPool.Reset | internal/account/pool_core.go:39-84 | a fresh queue, no slot in use, all waiters woken |
| AccountPool.SlotPool.ApplyRuntimeLimits | internal/account/pool_limits.go:9-29 | which limits are taken over and who is woken |
| PoolSafety.BumpPermutes | internal/account/pool_acquire.go:91-100 | bumping permutes the queue and puts the account last |
| PoolSafety.AcquireIsLru | internal/account/pool_acquire.go:57-89 | an untargeted caller gets the eligible account least recently acquired, and none only if none is eligible |
| PoolSafety.StepIsGoodIff | internal/account/pool_acquire.go:23-100 | a step keeps limits, counts and the queue's order if and only if new limits fit what is in use and waiting and a reset brings distinct ids |
| PoolSafety.StepIsBounded | internal/account/pool_limits.go:9-29 | below the highest limits so far every step, lowering a limit included, keeps these bounds and the order |
| PoolSafety.RunIsGood | internal/account/pool_acquire.go:23-100 | limits and least-recently-used order hold after any interleaving of such steps |
| PoolSafety.RunIsBounded | internal/account/pool_limits.go:9-29 | with limits raised and lowered at will, a run never exceeds the highest limits it has had and what was in use before it |
| PoolSafety.QueueIsPermuted | internal/account/pool_acquire.go:91-100 | between resets the queue stays a permutation of the accounts |
| PoolSafety.FreshIsGood | internal/account/pool_core.go:25-84 | a new pool satisfies the invariant |
| PoolSafety.TokensFirst | internal/account/pool_core.go:40-55 | the first queue lists the accounts with a token, in their order, before those without one |
| PoolSafety.LimitsAreTaken | internal/account/pool_limits.go:9-29 | which limit per account, of the queue and in all holds afterwards, for every input |
| PoolSafety.WaitingHasAPoint | internal/account/pool_waiters.go:3-16 | a caller that wants one account may queue exactly if there is a place and it would get the account with all slots given back |
| PoolWakeup.RoomIsAcquirable | internal/account/pool_acquire.go:57-89 | the room is the number of acquisitions that can still succeed, each using up one |
| PoolWakeup.ReleaseFreesOne | internal/account/pool_core.go:86-104 | giving a slot back frees at most one acquisition |
| PoolWakeup.TryKeepsWakeupsIff | internal/account/pool_acquire.go:23-55 | an attempt, with any target and exclude set, loses no wakeup if and only if it gets a slot, leaves nobody queued, or the others awake suffice for the free slots |
| PoolWakeup.UntargetedIsHarmless | internal/account/pool_acquire.go:74-89 | an attempt without target and exclude set always meets that condition |
| PoolWakeup.GiveBackKeeps | internal/account/pool_core.go:86-104 | a release loses no wakeup |
| PoolWakeup.NewLimitsKeepIff | internal/account/pool_limits.go:9-29 | new limits lose no wakeup if and only if at most one caller is queued or they make no more room than there are callers awake, the one they wake included |
| PoolWakeup.GiveUpKeepsIff | internal/account/pool_acquire.go:46-53 | a cancellation loses a wakeup exactly if the caller was woken, callers are queued and the others woken are fewer than the free slots |
| PoolWakeup.StepKeepsIff | internal/account/pool_acquire.go:23-55 | of all steps, exactly those that meet their condition keep as many callers awake as there are free acquisitions while a caller is queued |
| PoolWakeup.NoWakeupIsLost | internal/account/pool_acquire.go:23-55 | so does every interleaving of such steps |
| PoolWakeup.PlainIsHarmless | internal/account/pool_acquire.go:23-55 | untargeted attempts, releases and resets meet the condition in every interleaving |
| PoolWakeup.InitialQueueLists | internal/account/pool_core.go:39-55 | the queue a reset builds names every account once |
| PoolWakeup.StartsWell | internal/account/pool_core.go:25-37 | a new pool has lost no wakeup |
| PoolWakeup.QueuedMeansBusy | internal/account/pool_waiters.go:18-43 | after any run of a new pool, a queued caller means that the free acquisitions are no more than the callers awake, and that none succeeds if nobody is awake |
| PoolWakeup.TargetStrandsACaller | internal/account/pool_acquire.go:57-71 | the concrete run in which a release wakes a caller whose target is still taken, and the caller behind it stays queued beside a free slot |
| PoolWakeup.RaisedLimitStrandsACaller | internal/account/pool_limits.go:9-29 | the concrete run in which a raised limit makes room for two queued callers and only one ever gets it |
| PoolWakeup.CancelStrandsACaller | internal/account/pool_acquire.go:28-53 | the concrete run in which a caller stays queued beside a free slot |
| RequestSlots.AcquireWait | internal/account/pool_acquire.go:23-55 | among what other requests do, the loop computes the wait: a slot, cancelled, or refused; it keeps the slots of others |
| RequestSlots.RequestAuth.UseAccount | internal/auth/request.go:98-116 | an account with a usable token is kept, another one marked as tried and given back; others keep their slots |
| RequestSlots.RequestAuth.AcquireManaged | internal/auth/request.go:80-118 | the loop over accounts computes what the request gets, from the pool, the moves of others, cancellation and tokens; one slot held on success, none on error |
| RequestSlots.RequestAuth.SwitchAccount | internal/auth/request.go:184-209 | gives the account back and computes what the search finds; it fails only if no untried account can be acquired at that moment; others keep their slots, but for one of the old account if the request held none of it |
| RequestSlots.RequestAuth.FindOther | internal/auth/request.go:195-209 | the search loop terminates with a usable account not tried before, or with none to be acquired |
| RequestLaws.WaitReasons | internal/account/pool_acquire.go:23-55 | a wait ends with an acquired account, because it was cancelled, or because an attempt found nothing and the caller may not queue, in the pool as it is then |
| RequestLaws.WaitLeavesQueue | internal/account/pool_acquire.go:23-55 | however a wait ends, the caller is no longer queued |
| RequestLaws.MovesAreSteps | internal/account/pool_acquire.go:23-55 | what other requests do meanwhile are steps of the pool |
| RequestLaws.ManageReasons | internal/auth/request.go:80-118 | a request fails only because it was cancelled, every account or the target has been tried, or an attempt found nothing and could not queue; each account tried was acquired and unusable, none twice |
| RequestLaws.SwitchReasons | internal/auth/request.go:184-209 | a switch fails only if no untried account can be acquired in the pool it leaves; each account newly tried was acquired and unusable |
| RequestLaws.GivesBackAgain | internal/auth/request.go:184-194 | a switch gives the old account back whether a slot of it is held or not, and others may lose one |
| RequestLaws.FailuresAreCounted | internal/auth/request.go:184-216 | over any switches, the failures counted are the switches that found no account |
| RequestLaws.ManageFindsIff | internal/auth/request.go:80-118 | while nobody else moves and nobody cancels, a request gets an account if and only if an eligible one has a usable token |
| RequestLaws.TargetFoundIff | internal/auth/request.go:80-118 | and one with a target if and only if the target is eligible and usable |
| RequestLaws.SwitchFindsIff | internal/auth/request.go:184-209 | a switch finds another account if and only if an untried one is eligible and usable |
| RequestSlots.RequestAuth.Release | internal/auth/request.go:211-216 | gives back the request's slot, or, if it holds none, another request's |
| RequestSlots.RequestAuth.Serve | internal/auth/request.go:184-216 | over a request with any switches there is one surplus release for each failed switch, and other requests lose at most that many slots |
| RequestSlots.ReleaseIsOwnIff | internal/auth/request.go:191-194 | releasing an account leaves other requests their slots, whatever they hold, if and only if the request holds a slot of it |
| RequestSlots.OthersKeepIff | internal/account/pool_core.go:86-104 | in a given pool, if and only if that account has a slot in use beyond theirs, or they have none of it |
| RequestSlots.FailedSwitchFreesAnothersSlot | internal/auth/request.go:184-216 | the concrete run, one account with one slot: a failed switch, another request's acquisition, the deferred release, and the slot is free while it is held |
| RequestSlots.SurplusReleaseOvercommits | internal/account/pool_core.go:86-104 | a surplus release makes a full account acquirable again |
| Markup.FindTagEnd | internal/toolcall/toolcalls_parse_markup.go:279-298 | the quote-tracking loop finds the first '>' outside quotes |
| Markup.FindStartTag | internal/toolcall/toolcalls_parse_markup.go:194-216 | the loop finds the first visible start tag with its boundary and end |
| Markup.FindMatchingEndTag | internal/toolcall/toolcalls_parse_markup.go:218-258 | the depth loop finds the specified matching end tag |
| Markup.FindElementBlocks | internal/toolcall/toolcalls_parse_markup.go:168-192 | terminates with the outermost elements from the start of the text |
| Markup.EndIsFirstBalance | internal/toolcall/toolcalls_parse_markup.go:218-258 | the end tag is the first at which the depth over visible same-name tags returns to zero, missing exactly if it never does |
| Markup.StartIsVisible | internal/toolcall/toolcalls_parse_markup.go:194-216 | a start tag found is a visible opener and ends at its first '>' outside quotes |
| Markup.StartIsFirst | internal/toolcall/toolcalls_parse_markup.go:194-216 | the first opener the scanner can reach decides the search: it is returned if it ends, otherwise nothing is found |
| Markup.BlocksInOrder | internal/toolcall/toolcalls_parse_markup.go:168-192 | blocks are disjoint and increasing, each a start tag with its balancing end tag |
| MarkupLaws.TagEndIff | internal/toolcall/toolcalls_parse_markup.go:279-298 | a tag ends at a '>' exactly if plain text and whole quoted strings, in quotes of either kind, stand before it |
| MarkupLaws.SelfClosedSkips | internal/toolcall/toolcalls_parse_markup.go:218-258 | a tag that ends in a slash is stepped over at any depth |
| MarkupLaws.NestedSkips | internal/toolcall/toolcalls_parse_markup.go:218-258 | an element inside an element of its name is stepped over at any depth |
| MarkupScan.ElementFound | internal/toolcall/toolcalls_parse_markup.go:168-192 | an element whose body shows no tag of its name is found with its exact bounds |
| MarkupInert.RenderedValueIsInert | internal/prompt/tool_calls.go:306-314 | no rendered value, whatever it holds, shows the scanner a tag |
| MarkupInert.SplitStep | internal/prompt/tool_calls.go:306-314 | a value with a section closer is rendered as one section after another |
| MarkupInert.EscapedIsSafe | internal/prompt/tool_calls.go:320-330 | an escaped name holds no quote and no '<' |
| MarkupInert.ElementIsBlock | internal/toolcall/toolcalls_parse_markup.go:168-192 | a rendered element is the next block, with its attributes, body and bounds |
| ToolCallNames.UnescapeEscape | internal/prompt/tool_calls.go:320-330 | unescaping undoes escaping, for every text |
| ToolCallNames.NameReadsBack | internal/toolcall/toolcalls_parse_markup.go:323-343 | any name written as an attribute is read back, up to surrounding blanks |
| AttributeLaws.AttributesRead | internal/toolcall/toolcalls_parse_markup.go:323-343 | attributes in any letter case, with blanks around the equals sign and quotes of either kind, are read as the last value under each key |
| AttributeLaws.NameIsLast | internal/toolcall/toolcalls_parse_markup.go:81-87 | the name of a call is its last attribute of that name, unescaped and trimmed |
| ToolCallNames.ValueRead | internal/toolcall/toolcalls_parse_markup.go:380-424 | a rendered value is read as the content of one section, closers still split |
| ToolCallNames.ValueSurvivesIff | internal/toolcall/toolcalls_parse_markup.go:380-454 | a value survives rendering and parsing if and only if it holds no section closer and reads as no literal |
| ToolCallTyped.PureNumberIff | internal/toolcall/toolcalls_parse_markup.go:428-454 | a pure number is an optional minus and digits with at most one point among them |
| ToolCallTyped.SectionWrites | internal/toolcall/toolcalls_parse_markup.go:380-424 | a section is read as a value if and only if it writes it: true, false and null in any letter case and a number, between any blanks, and any other text as itself |
| ToolCallTyped.TypedValueRead | internal/toolcall/toolcalls_parse_markup.go:380-424 | the same for a value that is rendered and read back |
| ToolCallTyped.TypedCallReads | internal/toolcall/toolcalls_parse_markup.go:81-130 | a rendered call whose parameters write typed arguments is read with just these |
| ToolCallTyped.TypedRoundTrip | internal/toolcall/toolcalls_parse_markup.go:14-159 | rendered and parsed, it comes back as the call with them |
| ToolCallLaws.BlanksAroundValue | internal/toolcall/toolcalls_parse_markup.go:380-424 | blanks around a value, rendered or not, do not matter |
| ToolCallLaws.ArgumentsCollect | internal/toolcall/toolcalls_parse_markup.go:107-118 | the arguments are what was given under each name, repeated values in order, nothing lost; what has no name is dropped |
| ToolCallLaws.ReadToolIff | internal/toolcall/toolcalls_parse_markup.go:156-159 | a read tool is one whose name ends in "read" or holds "read_", in any letter case |
| ToolCallLaws.ReadKeepsFirst | internal/toolcall/toolcalls_parse_markup.go:134-154 | a read tool keeps the first of file_path, path, file and filepath that it is given, and that alone |
| ToolCallLaws.SaidIsRead | internal/toolcall/toolcalls_parse_markup.go:81-130 | a call with a JSON object in it, between blanks, is read with its entries, and one with nothing in it without arguments |
| ToolCallLaws.StrayTextIsDropped | internal/toolcall/toolcalls_parse_markup.go:81-130 | a call without a name, or with text but neither parameters nor an object in it, is dropped |
| ToolCallLaws.BareCallIsRead | internal/toolcall/toolcalls_parse_markup.go:14-48 | a call outside of any wrapper is read |
| ToolCallLaws.MixedCallsAreRead | internal/toolcall/toolcalls_parse_markup.go:14-57 | a call in a wrapper and one behind it are both read, each once |
| ToolCallLaws.RepairIsRead | internal/toolcall/toolcalls_parse_markup.go:14-48 | where nothing is found, what the repair of the wrapper restores is read |
| ToolCalls.RenderToolParameters | internal/prompt/tool_calls.go:119-140 | lines for all parameters, refused exactly if a name is blank |
| ToolCalls.FormatToolCallParameters | internal/prompt/tool_calls.go:105-117 | the parameters, or the JSON text as one content parameter |
| ToolCalls.FormatToolCallsForPrompt | internal/prompt/tool_calls.go:21-103 | the loop renders the named calls into one wrapper, or nothing |
| ToolCalls.IsPureNumber | internal/toolcall/toolcalls_parse_markup.go:428-454 | digits with at most one decimal point and an optional leading minus |
| ToolCalls.ParseSingleToolCall | internal/toolcall/toolcalls_parse_markup.go:81-130 | name, JSON body or gathered parameters, and when a call is refused |
| ToolCalls.ParseToolCalls | internal/toolcall/toolcalls_parse_markup.go:14-57 | calls inside wrappers, then calls outside every wrapper |
| ToolCallRoundTrip.GatherRendered | internal/toolcall/toolcalls_parse_markup.go:107-118 | rendered parameters are gathered in order under their trimmed names |
| ToolCallRoundTrip.CallReads | internal/toolcall/toolcalls_parse_markup.go:81-130 | a rendered call reads as its name and gathered parameters |
| ToolCallRoundTrip.SimplifyShape | internal/toolcall/toolcalls_parse_markup.go:134-159 | a read tool keeps one of its parameters, any other tool all |
| ToolCallRoundTrip.RenderedCallsReadBack | internal/prompt/tool_calls.go:21-189 | every rendering parses to the calls it shows, none lost, added, merged or moved, and is empty only if no call has a name |
| ToolCallRoundTrip.CallSurvivesIff | internal/prompt/tool_calls.go:70-189 | a call comes back unchanged if and only if it is faithful |
| ToolCallRoundTrip.RoundTripIff | internal/toolcall/toolcalls_parse_markup.go:14-159 | parsing what was rendered gives the calls back if and only if every call is faithful |
| FencedText.UpdateCDATAState | internal/toolcall/toolcalls_parse.go:197-219 | the scan of a line computes whether a section is open after it |
| FencedText.StripFencedCodeBlocks | internal/toolcall/toolcalls_parse.go:133-171 | the loop over lines computes the text without its fenced lines, nothing if the last fence stays open |
| FencedText.StripLeavesIff | internal/toolcall/toolcalls_parse.go:133-171 | exactly the texts in which no fence opens are left as they are |
| FenceCuts.OpensIff | internal/toolcall/toolcalls_parse.go:221-234 | a line opens a fence exactly if it is blanks, three or more equal marks and text that does not go on with the mark |
| FenceCuts.ClosesIff | internal/toolcall/toolcalls_parse.go:236-250 | a line closes a fence exactly if it is blanks, as many of its marks or more, and blanks |
| FenceCuts.FenceIsCut | internal/toolcall/toolcalls_parse.go:133-171 | a closed fence behind lines without one goes, and of what is in it only the CDATA sections stay |
| FenceCuts.OpenFenceTakesAll | internal/toolcall/toolcalls_parse.go:133-171 | a fence that is never closed takes everything, even what stands before it |
| FencedCalls.SplitEnters | internal/prompt/tool_calls.go:306-314 | a rendered line of a value opens a section before a fence marker exactly if the line itself holds an opener or a closer before one |
| FencedCalls.QuietParamIff | internal/toolcall/toolcalls_parse.go:133-219 | no fence opens in a rendered parameter exactly if none does in its name, and none in its value if the last line of the name holds a marker |
| FencedCalls.StripLeavesCallsIff | internal/toolcall/toolcalls_parse.go:133-219 | fenced lines are cut out of a rendering exactly if a fence opens in a name, or in a value behind such a name |
| ToolCallReply.FilterToolCalls | internal/toolcall/toolcalls_parse.go:77-106 | the loop with its set of paths computes the calls without those that read a path again |
| ToolCallReply.ParseToolCallsDetailed | internal/toolcall/toolcalls_parse.go:36-75 | fences cut, calls read, or read from repaired markup, repeated reads dropped |
| ToolCallReply.NothingDroppedIff | internal/toolcall/toolcalls_parse.go:77-106 | of named calls none is dropped if and only if no two read one path |
| ToolCallReply.FirstStays | internal/toolcall/toolcalls_parse.go:77-106 | the first call always stays |
| ReplyLaws.PathIsFirst | internal/toolcall/toolcalls_parse.go:108-124 | a read is about the first text under file_path, path, file and filepath |
| ReplyLaws.OtherwiseSome | internal/toolcall/toolcalls_parse.go:108-124 | without one, about some text it is given, and about nothing only if it is given none but empty text |
| ReplyLaws.OnlyReadsRepeat | internal/toolcall/toolcalls_parse.go:77-106 | only reads of a file are ever taken for repeated ones |
| ReplyLaws.MendedIff | internal/toolcall/toolcalls_parse.go:36-75 | a reply that says nothing as it is, is read as mended, or not at all if it cannot be mended |
| RenderedCalls.ReplyReadsBack | internal/toolcall/toolcalls_parse.go:36-106 | a rendering in which no fence opens is read as the calls it shows, repeated reads dropped |
| RenderedCalls.AllAreReadIff | internal/toolcall/toolcalls_parse.go:36-106 | it is read as all the calls it shows if and only if no two of them read one path |
| RenderedCalls.ReplyRoundTripIff | internal/toolcall/toolcalls_parse.go:36-106 | it is read as the calls that were rendered if and only if every call is faithful and no two read one path |
| RenderedCalls.RepeatedReadIsDropped | internal/toolcall/toolcalls_parse.go:84-97 | two rendered reads of one file are read as one |
| RenderedCalls.ExposedFenceIsCut | internal/toolcall/toolcalls_parse.go:133-182 | behind a parameter name with a fence marker, a fence and what is in it are cut out of the value |
| RenderedStream.OneBlockStream | internal/toolstream/tool_sieve_core.go:9-135 | a stream that is one block shows nothing and delivers its calls once, those of its repair if it holds none itself, or is shown if there are none either way, in any chunks, back-ticks included |
| RenderedStream.WrapperIsOneBlock | internal/toolstream/tool_sieve_xml.go:33-90 | a rendered wrapper is one block for the sieve, whatever names and values it holds |
| RenderedStream.RenderingStreams | internal/toolstream/tool_sieve_xml.go:33-90 | any rendering streamed through the sieve in any chunks delivers at once what the reply parser makes of it and shows no text, or shows all of it if that is nothing |
| RenderedStream.RenderedCallsStream | internal/toolstream/tool_sieve_xml.go:33-90 | if no fence opens in it, the calls it shows are delivered without repeated reads, all of them exactly if no two read one path |
| RenderedStream.RepeatedReadIsLost | internal/toolcall/toolcalls_parse.go:84-97 | two rendered reads of one file are delivered as one, in any chunks |
| RenderedStream.ExposedFenceIsLost | internal/toolcall/toolcalls_parse.go:133-182 | a value is delivered without its fenced part behind a parameter name with a fence marker, in any chunks |
| HistoryModel.SortNewestFirst | internal/chathistory/store.go:535-567 | sorted by update, then creation time, descending; a permutation |
| HistoryModel.SortedLists | internal/chathistory/store.go:535-567 | a permuted list still has exactly one summary for each detail |
| HistoryStore.SummaryReads | internal/chathistory/store.go:578-597 | the index holds a summary for every entry that says whose it is, how it went and when |
| HistoryStore.PreviewShows | internal/chathistory/store.go:599-614 | the preview is the first of content, reasoning, error and user input that is not blank, without its blanks, cut at 160 characters |
| HistoryStore.CutIsTrimmed | internal/chathistory/store.go:535-567 | cutting the sorted list evicts only entries no newer than any kept |
| HistoryStore.StaysWithin | internal/chathistory/store.go:535-567 | an entry that stays has fewer newer ones than the limit, and one with at most as many newer or equally old ones, itself included, stays |
| HistoryStore.StaysIff | internal/chathistory/store.go:535-567 | without ties, an entry stays if and only if fewer entries than the limit are newer |
| HistoryStore.StartedStays | internal/chathistory/store.go:242-278 | the same two bounds for a started entry, in terms of the stored times and the clock |
| HistoryStore.FullStoreEvicts | internal/chathistory/store.go:242-278 | the concrete store, ten entries and a clock running backwards, that loses its eleventh entry as it is started |
| HistoryStore.AllWritten | internal/chathistory/store.go:490-533 | once pending files are written and removed, disk equals memory |
| HistoryStore.Store.constructor | internal/chathistory/store.go:159-177 | a new store on an empty disk satisfies the invariant |
| HistoryStore.Store.MarkDirty | internal/chathistory/store.go:712-725 | a changed id is pending for writing and no longer for removal |
| HistoryStore.Store.MarkDeleted | internal/chathistory/store.go:727-740 | a deleted id is pending for removal and no longer for writing |
| HistoryStore.Store.NextRevision | internal/chathistory/store.go:569-576 | revisions strictly grow and reach the clock, under any clock |
| HistoryStore.Store.RebuildIndex | internal/chathistory/store.go:535-567 | one summary for each detail, sorted, trimmed to the newest; evicted files pending for removal |
| HistoryStore.Store.RemoveFiles | internal/chathistory/store.go:490-533 | stops at the first failure, reconcilable in any case |
| HistoryStore.Store.WriteFiles | internal/chathistory/store.go:490-533 | stops at the first failure, reconcilable in any case; disk equals memory if none fails |
| HistoryStore.Store.Save | internal/chathistory/store.go:490-533 | whatever fails, memory and disk stay reconcilable; success makes disk equal memory, also after failures |
| HistoryStore.Store.Start | internal/chathistory/store.go:242-278 | adds the new entry and trims, which it survives within the two bounds; errors change nothing; the saved state is on disk |
| HistoryStore.Store.Update | internal/chathistory/store.go:280-328 | exactly the named entry changes, field by field, or an error and no change |
| HistoryStore.UpdateReads | internal/chathistory/store.go:280-328 | an updated entry is the same request with the reply of the update, each field its own, and keeps what the update leaves out |
| HistoryStore.LastUpdateCounts | internal/chathistory/store.go:280-328 | a full update leaves nothing of an earlier one |
| HistoryStore.NewReads | internal/chathistory/store.go:242-278 | a started entry is its request, identifying fields trimmed, with no reply yet |
| HistoryStore.Store.Delete | internal/chathistory/store.go:330-354 | exactly the named entry goes, or an error and no change |
| HistoryStore.Store.Clear | internal/chathistory/store.go:356-375 | no entry is left in memory, and none on disk if saved |
| HistoryStore.Store.SetLimit | internal/chathistory/store.go:377-396 | only allowed limits; the store is trimmed to the new one |
| JsonRepair.FourHex | internal/toolcall/toolcalls_json_repair.go:27-34 | the digit loop tests exactly the four characters after the u |
| JsonRepair.RepairInvalidBackslashes | internal/toolcall/toolcalls_json_repair.go:8-54 | the jumping index loop computes the repair |
| JsonRepair.EscapeIff | internal/toolcall/toolcalls_json_repair.go:8-54 | an escape is one of the eight short ones or a code unit in four digits of either letter case, nothing else |
| JsonRepair.RepairKeepsMeaning | internal/toolcall/toolcalls_json_repair.go:8-54 | the repaired text reads strictly, as a lenient reader reads the original |
| JsonRepair.UnchangedIffStrict | internal/toolcall/toolcalls_json_repair.go:8-54 | a text is left as it is if and only if all its backslashes start escapes |
| JsonRepair.RepairTwice | internal/toolcall/toolcalls_json_repair.go:8-54 | repairing is idempotent |
| AutoContinue.ContinueState.Observe | internal/deepseek/client/client_continue.go:164-216 | what one data line does to identifier, status and finished flag |
| AutoContinue.ContinueState.ShouldContinue | internal/deepseek/client/client_continue.go:218-233 | exactly when another round may be opened |
| AutoContinue.ContinueState.PrepareForNextRound | internal/deepseek/client/client_continue.go:235-243 | status and finished flag are forgotten, identifiers kept |
| AutoContinue.StreamBody | internal/deepseek/client/client_continue.go:130-162 | lines passed on, end marks swallowed, state observed, up to cancellation or a failed write |
| AutoContinue.PumpAutoContinue | internal/deepseek/client/client_continue.go:96-128 | the splicing loop computes the pump's outcome for any upstream |
| AutoContinueRuns.PassForwards | internal/deepseek/client/client_continue.go:134-162 | a body is passed on completely unless disturbed, then a first part of it |
| AutoContinueRuns.DoneIff | internal/deepseek/client/client_continue.go:130-162 | an end mark is a data line of blanks and [DONE], and nothing else is one |
| AutoContinueRuns.SeeHears | internal/deepseek/client/client_continue.go:164-216 | a chunk's effect is its list of states and identifiers, the last of each counting |
| AutoContinueRuns.MayContinueIff | internal/deepseek/client/client_continue.go:218-233 | whether a round is continued is read off its body: no FINISHED said, the last state asks for more, an identifier known |
| AutoContinueRuns.RoundsFollow | internal/deepseek/client/client_continue.go:96-128 | at most the allowed number of continuations, each opened for that reason and for the identifier last named |
| AutoContinueRuns.PumpSplices | internal/deepseek/client/client_continue.go:96-162 | the output is the in-order concatenation of all rounds' lines, one end mark exactly if the last round had one; when it fails, and then a prefix |
| AutoContinueRuns.OneEndMark | internal/deepseek/client/client_continue.go:120-125 | an end mark is only ever the last line, of a run that did not fail, and is there exactly if the last round had one |
| ClaudeStream.Runtime.CloseThinkingBlock | internal/httpapi/claude/stream_runtime_finalize.go:13-23 | an open thinking block is stopped once |
| ClaudeStream.Runtime.CloseTextBlock | internal/httpapi/claude/stream_runtime_finalize.go:25-35 | an open text block is stopped once |
| ClaudeStream.Runtime.AddThinking | internal/httpapi/claude/stream_runtime_core.go:91-123 | a thinking piece closes the text block, opens its own and is sent |
| ClaudeStream.Runtime.AddText | internal/httpapi/claude/stream_runtime_core.go:125-157 | a text piece is buffered, or closes the thinking block, opens its own and is sent |
| ClaudeStream.Runtime.HandleLine | internal/httpapi/claude/stream_runtime_core.go:68-161 | the loop over parts and what the engine is told |
| ClaudeStream.Runtime.Finish | internal/httpapi/claude/stream_runtime_finalize.go:37-123 | open blocks closed, tools or buffered text written, the message ended, once |
| ClaudeStream.Consume | internal/stream/engine.go:45-139 | the engine's loop over lines, ticks, timeouts and ends computes a run |
| ClaudeTrace.PartsKeepSound | internal/httpapi/claude/stream_runtime_core.go:68-161 | a line keeps the trace a well-formed beginning whose deltas are the accumulated content |
| ClaudeTrace.FinalizeSaysAll | internal/httpapi/claude/stream_runtime_finalize.go:37-123 | a finished message is complete and says the thinking and the text, or the calls found in the text, or in the thinking if there is no text; with the right reason and token count |
| ClaudeTrace.FinalizeTwice | internal/httpapi/claude/stream_runtime_finalize.go:37-41 | finishing a second time changes nothing |
| ClaudeTrace.EveryRunIsWellFormed | internal/httpapi/claude/stream_runtime_finalize.go:13-135 | every run is a well-formed beginning, a complete message, or breaks off with the error, by how it ended |
| ClaudeEndings.EndsAsItSays | internal/stream/engine.go:45-139 | the first input that ends a run says how: normally, with its error as the last event, trimmed or the default text, or without a word |
| ClaudeEndings.EndingIff | internal/httpapi/claude/stream_runtime_finalize.go:125-135 | a run is finished, failed, abandoned or still running exactly by the kind of the first input that ends it, or because there is none |
| ClaudeEndings.PingsAreTicks | internal/stream/engine.go:45-139 | one ping goes out for each tick before that input, and no other |
| ClaudeContent.AcceptedIsBlocks | internal/httpapi/claude/stream_runtime_finalize.go:37-123 | every trace the grammar accepts is a row of numbered blocks |
| ClaudeContent.FinishedIsMessage | internal/httpapi/claude/stream_runtime_finalize.go:37-123 | a finished run has sent the start, blocks 0, 1, 2, ... each started, filled and stopped, and the two closing events |
| ClaudeContent.RunAccumulates | internal/httpapi/claude/stream_runtime_core.go:80-160 | text and thinking are what their own pieces add up to, however interleaved and grouped |
| ClaudeContent.ContentSeenIff | internal/httpapi/claude/stream_runtime_core.go:80-89 | a line tells that something arrived exactly if it holds a part with content, thinking that is not passed on included, dropped citations not |
| ClaudeContent.SnapshotsLeaveLongest | internal/sse/dedupe.go:10-24 | long pieces that are beginnings of one text, in any order and however often resent, add up to the longest of them |
| ClaudeContent.ResentAddsNothing | internal/sse/dedupe.go:10-24 | after any pieces, resent snapshots add nothing and a snapshot that goes further becomes the text |
| ClaudeContent.RunOfSnapshots | internal/httpapi/claude/stream_runtime_core.go:125-157 | a run whose text pieces are snapshots of one text ends with the longest |
| ClaudeContent.AppendedWholeIff | internal/sse/dedupe.go:10-24 | a piece is appended whole if and only if it is short or does not agree with the beginning |
| ThinkingCache.NormalizeContentForFingerprint | internal/thinkingcache/cache.go:298-337 | the loop computes the normal form of content blocks |
| ThinkingCache.NormalizeForFingerprint | internal/thinkingcache/cache.go:260-296 | the loop computes the normal form of messages |
| ThinkingCache.SortByAge | internal/thinkingcache/cache.go:379-393 | each key once, oldest first |
| ThinkingCache.Cache.PruneOverflow | internal/thinkingcache/cache.go:379-401 | as many entries as allowed stay, none that goes is newer than one that stays, data of the gone removed |
| ThinkingCache.Cache.Store | internal/thinkingcache/cache.go:106-157 | the new entry, expiry, eviction and data, in every case of a refusing file system |
| ThinkingCache.Cache.Apply | internal/thinkingcache/cache.go:42-104 | every assistant message gets the reasoning cached for the messages before it; changed exactly if some message did |
| ThinkingCacheLaws.OnlyReasoningChanges | internal/thinkingcache/cache.go:58-92 | only the reasoning field, only of assistant messages |
| ThinkingCacheLaws.FingerprintsStay | internal/thinkingcache/cache.go:42-104 | restoring keeps the fingerprint of every beginning of the conversation |
| ThinkingCacheLaws.ApplyTwice | internal/thinkingcache/cache.go:42-104 | a second restoring, same cache and time, changes nothing |
| ThinkingCacheKeys.SameKey | internal/thinkingcache/cache.go:247-337 | conversations that differ in system messages and reasoning fields only have one key |
| ThinkingCacheKeys.NormalAgreesIff | internal/thinkingcache/cache.go:260-337 | normal forms are equal if and only if the conversations agree outside system messages, reasoning, and what block types do not keep |
| ThinkingCacheKeys.SameKeyIff | internal/thinkingcache/cache.go:247-337 | with a hash that tells its arguments apart, keys are equal if and only if the models are, up to blanks, and the conversations agree in that sense |
| ThinkingCacheKeys.PicturesShareAKey | internal/thinkingcache/cache.go:316-336 | two different pictures, two different conversations, one key |
| ThinkingCacheTimes.HiddenIff | internal/thinkingcache/cache.go:260-296 | a field is left out of the fingerprint exactly if it bears one of four names, in any letter case and between blanks |
| ThinkingCacheTimes.RestoredIff | internal/thinkingcache/cache.go:177-190 | reasoning is restored exactly to assistant messages whose conversation has an entry still to expire in a readable index, with text of its own or in a readable file; the entry's own text comes first |
| ThinkingCacheTimes.StoredLasts | internal/thinkingcache/cache.go:106-157 | what was stored is restored for 7200 seconds and no longer |
| ThinkingCacheTimes.StaysUntilExpiry | internal/thinkingcache/cache.go:368-377 | an entry without an expiry stays for ever and is never restored, one that has expired goes |
| ThinkingCacheTimes.ChangedIff | internal/thinkingcache/cache.go:58-92 | a message changes exactly if there is something to restore that it does not have already |
| ThinkingCacheTimes.OldestGo | internal/thinkingcache/cache.go:379-401 | only over the limit does anything go, and of entries with a creation time the oldest |
| ThinkingCacheRuns.KeptWithin | internal/thinkingcache/cache.go:379-401 | an entry that stays has fewer later ones than the limit, and one with at most as many that are not earlier, itself included, stays |
| ThinkingCacheRuns.NewestIsKept | internal/thinkingcache/cache.go:379-401 | eviction keeps an entry newer than all others |
| ThinkingCacheRuns.StoredIsRestored | internal/thinkingcache/cache.go:42-189 | an unexpired entry with its data is restored after any conversation with its fingerprint |
| ThinkingCacheRuns.RestoredForSameConversation | internal/thinkingcache/cache.go:42-189 | the same after any conversation that agrees with the stored one |
| ThinkingCacheRuns.UseCache | internal/thinkingcache/cache.go:42-157 | stores and restorings leave an entry and its data in place if they come before it expires, do not overwrite it or replace an unreadable index, and their limits hold the entries written no earlier |
| ThinkingCacheRuns.StoreUseApply | internal/thinkingcache/cache.go:42-157 | when a store succeeds; and from a successful one, over any such uses, to a restoring within two hours: every conversation that agrees with the stored one gets its reasoning |

## Left out

Where the code and what is said about it disagree, the model follows the code: see the limits named
above, the lemmas in `SieveSteady`, `SieveFences` and `SieveLimits`, `PoolWakeup.Harmless` and the runs after it,
`RequestSlots.ReleaseIsOwnIff`, `HistoryStore.StartedStays`, `ToolCallNames.ValueSurvivesIff`,
`FencedCalls.StripLeavesCallsIff`, `ToolCallReply.NothingDroppedIff` and `ThinkingCacheKeys.SameKeyIff`.

- HTTP handlers, routers, the TLS client, the Vercel bridge, the web interface and the JavaScript stream path: plumbing over foreign libraries.
- DSML markers, full-width bars and Unicode case folding: texts are byte strings without them, lowering is ASCII only.
- RenderedStream.RenderedCallsStream: for names and values that hold no DSML marker, which the sieve and the parser would take out.
- The XML, JSON and regular-expression engines, SHA-256, UUIDs and token counting: arbitrary functions or fresh values; of HTML entities only the four the renderer writes.
- The clock: an arbitrary integer or an arbitrary event; crash recovery between processes is not modelled.
- The sieve's incremental argument fields and its delta switch: they do not affect what is released.
- SieveChunks.ChunkingIsInvisible: for text with back-ticks its condition is sufficient; a misread blank piece may be made good by the lines after it, and SieveFences.LostBlankIff says for one such piece when it is not.
- SieveChunks.RunRefines: for steady text, and for text with back-ticks in runs that misread no piece; SieveChunks.LevelIsHeard says when that is so, SieveSteady.SteadyIff and SieveFences what happens otherwise.
- SieveRefinement.DrainRefines: the same for one drain, with SieveCuts.DrainIsHeard.
- Shifts and bit-wise operators on 64-bit words are used as the language defines them; building the PoW header (base64 and JSON) is left out.
- PoolWakeup.NoWakeupIsLost: over runs whose steps meet the condition of PoolWakeup.StepKeepsIff; a caller that is cancelled before it was ever queued is no step.
- PoolSafety.RunIsGood: over runs whose new limits fit what is in use; PoolSafety.RunIsBounded covers the others.
- AccountPool.SlotPool.Reset: one atomic step, while the source writes the limit per account just before it takes the lock (pool_core.go:56-69), so that another caller may briefly see the new limit with the old counts.
- PoolWakeup.InitialQueueLists: for accounts with distinct identifiers.
- RequestSlots.RequestAuth.Serve: the pool is not reset while a request holds a slot; which tokens are usable, when a wait is cancelled and what other requests do are inputs, and a wait is followed up to a given time; other requests are assumed to make no surplus release meanwhile, which by RequestSlots.OthersKeepIff would take a slot from this one.
- Nested parameter values (maps, lists, numbers, null) of rendered calls: their reading goes through the XML library; parameters come as a list in the order they are written, sorting the keys is left out.
- The second places a call's name and arguments may come from (`function`, `input`): resolved before the model starts.
- ToolCallRoundTrip.RoundTripIff: which entry of a map Go meets first is an arbitrary function, not a choice made anew on each iteration.
- HistoryStore.Store.constructor: starts from an empty disk; loading an index and details, the migration of the old file format and token statistics are left out, and a failed load is a flag.
- In the history store's save the branch for a limit that is not allowed: no operation sets such a limit.
- Library sorts are insertions; the order among equals is whatever they give.
- The thinking cache's index and data files are maps; a refused write leaves the old content.
- AutoContinue.StreamBody: a line counts as passed on when it was written whole; lines above the scanner's limit are read errors.
- `RepairLooseJSON` and the other heuristics over regular expressions: no crisp specification.
