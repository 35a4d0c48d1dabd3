# kxo, verified

kxo is a kernel module that keeps nine games of 4x4 three-in-a-row running between three
engines (Monte Carlo tree search, negamax, temporal-difference learning), and a user program
that shows them with a small coroutine runtime. This project models the engines, the per-game
protocol, the packed words they share, the random generator and the coroutine runtime in
Dafny, and proves what each is relied on for.

| file | what it models |
|---|---|
| Basics.dfy | the fixed-point unit, distinctness, products and quotients |
| WinLines.dfy | the table of straight runs, for every board size and goal |
| Game.dfy, StaticScore.dfy | boards, verdicts, move lists, the static score and what it says |
| Bits.dfy, WinMasks.dfy | the packed board, record and attribute words; win detection by masks |
| Minimax.dfy | what a depth-limited search is meant to compute |
| XorWords.dfy, Keys.dfy, DistinctKeys.dfy | Zobrist keys of the positions of a search |
| Zobrist.dfy, Negamax.dfy | the transposition table and the principal variation search |
| FixedPoint.dfy, FixedAccuracy.dfy | the hand-written square root, logarithm and selection score, and how near they come |
| MctsTree.dfy, Mcts.dfy, Playouts.dfy | the search tree as a value, the search on the heap that refines it, and the games its rollouts are |
| Record.dfy | the 4-bit move record and the learning episode of a game |
| Protocol.dfy, ProtocolInvariant.dfy, ProtocolSafety.dfy, ProtocolWitness.dfy | one game shared by timer, tasklet, workers and release: steps, invariant, consequences, concrete runs |
| ProtocolProgress.dfy, ProtocolLedger.dfy | that the work on a game always ends, and that all it owes is delivered |
| ProtocolEpisodes.dfy | what exactly a game records for the learner |
| ProtocolLateMove.dfy | moves on a board that is already won |
| RecencyMap.dfy, RlState.dfy | the learner's cache as a map with a recency list, and the four structures that refine it |
| RlFixed.dfy, Learning.dfy | the 32-bit fixed-point update and the learning agent |
| EpisodeValues.dfy, GreedyPlay.dfy, ProtocolLearning.dfy | what an episode teaches, what is played by it, and the games that feed it |
| Xoroshiro.dfy | the random generator and its jump |
| Scheduling.dfy, Scheduler.dfy | the coroutine scheduler as a transition system, and its linked queue |
| Rings.dfy, Channels.dfy | the ring buffer, and the system of a sender, a receiver and a channel |
| Conversation.dfy, Channel.dfy | that system on the scheduler, and the channel in place |

## The main results

- **Search.** With the table allocation failed, `Searcher.Predict` plays a move that two-player
  minimax to depth 6 calls optimal, whatever order the moves are tried in. With the table live,
  every hit under collision-free keys (there are such) is the result of a completed call on the
  same board, depth and side; under any collisions at all, the move is legal, all scores lie
  within 2400 of zero, and the table is empty and the running key zero between calls. The static
  score at the leaves is what it should be: a line counts for the side that alone has stones in
  it, and a move raises the mover's score exactly when some line through the cell is not mixed
  already.
- **Monte Carlo tree.** On every run each node's visits and score are conserved along the tree: a
  finished board's score is its visits times its value, any other node's is that of one random
  game, played in turns to its end, plus what came up from its children. Selection never comes
  back empty-handed (the fixed-point score is positive and does not wrap for any visit count a
  search can reach), and the answer is a most-visited empty cell or -1. The logarithm in that
  score is within 40 units of 2^-16 of the series it truncates, for every word.
- **Protocol.** In every interleaving: one owner, one lock holder, reads made before the lock are
  still current at every write that uses them, a READY game replays from its record, every frame
  handed out is a consistent snapshot, and every episode handed to the learner belongs to one
  game, with every move of the winner in it. The learner hears of exactly the games it should, in
  order; every picture asked for is delivered or refused for BUSY. There is no deadlock, and after
  at most 198 steps without a new start all work has ended, so the last close of the device always
  ends, and leaves a READY game. The assumptions below apply.
- **Learner.** Bitmap, hash chains, slots and recency list always agree and stand for a map; the
  score bound is inductive and holds whatever the games hand the learner, so no 32-bit overflow
  happens. The backward update is the learning rule, stated over the cache it leaves, where
  nothing had to be evicted; greedy play is maximal by what was learnt. Exactly when an eviction
  takes the least recently used is stated.
- **Words and lines.** The line table is exactly the straight runs for every `n >= goal >= 2`;
  mask tests on packed boards agree with the cell-by-cell verdict.
- **Generator.** A step is a linear bijection; a jump is the marked sum of later states, so it
  commutes with steps and with other jumps.
- **Coroutines.** Ready means queued exactly once; whoever yields, is woken or is started is
  resumed after exactly those queued before, whoever suspends only after being woken; a channel
  delivers in order, loses no wake-up and never suspends both ends; on the scheduler, every
  wake-up meets a blocked coroutine and no woken party is left behind when the scheduler returns.

A natural claim is false of DONE games: that they are consistent, as READY games are. The
finish worker writes attributes, table, record and turn one after the other while the game is
DONE. After the first write the table is not the replay of the record; after the table and
until the turn is written, the turn is still that of the old game, which is wrong when X was to
move. `ProtocolSafety.DoneConsistent` says exactly when a DONE game's table is the replay
of its record and exactly when the game is consistent altogether;
`ProtocolWitness.CaughtMidReset` and `ProtocolWitness.CaughtWithStaleTurn` are concrete runs
that reach the two exceptions.

The repository's README calls the learner's cache LRU. The code puts a new entry at the front of
the eviction order (src/rl-state.c:76), so the next eviction takes entries never hit since
insertion, newest first, before any hit entry (`RecencyMap.VictimsInOrder`).
`RecencyMap.EvictsLeastRecentIff` says exactly when an eviction takes the least recently used
all the same: when the first board that stays has been hit, and the head of the list was last
used before it. `RecencyMap.LruFails` exhibits lookups after which it does not, at every
capacity from 3 to 3^16, the 16384 in use among them.

A game can be played on after it is won. The timer does not look at the board of a BUSY game, and
the tasklet never does, so a pass that falls within the winning move still lets the other side
move (`ProtocolLateMove.LateMove`). That is the only way: a dispatch onto a decided board was
always told by a pass that had found the game BUSY (`ProtocolLateMove.LateDispatchNeedsBusyLook`).

The two agents of a game are packed into one number, the second shifted by two bits, and O's is
read back as that number modulo three without masking the second out (include/game.h:25-26,
src/main.c:253, 491-505). So O plays with the sum of the two draws modulo three, and with the one
drawn for it exactly when the other is agent 0 (`ProtocolLedger.AgentsDrawn`). All readers decode
it alike, so learning and play agree with each other.

With the transposition table live the re-search never searches: below any child that is not a
leaf it returns the answer its own probe has just left in the table
(`Negamax.Searcher.Research`).

## Assumptions

Cells hold empty, O or X, never the code reserved for a draw. Memory is sequentially
consistent, and the timer handler and the tasklet do not interleave with each other (both run
as soft interrupts). Allocations succeed except where said. Random numbers, clocks, agents'
choices, display flags and shutdown are arbitrary at every step. Code outside a channel does not
wake a coroutine suspended in it, and a coroutine inside a send or a receive does nothing else
until that returns. Nobody opens the device while its last close is still going on: such an open
would re-arm the timer after it was stopped, and a finish queued then could meet the close's
own write of READY, an interleaving the ownership results do not cover.

## Model

| member | source | states |
|---|---|---|
| `WinLines.NumberingInverse` | src/game.c:45-61 | the nested loops visit every start position once: a position's place in the loop order leads back to it |
| `WinLines.StartAtIsStart` | src/game.c:45-61 | every index below the pattern count belongs to a start position, whose place is that index; so exactly WIN_PATT_LEN lines |
| `WinLines.SegmentsInRange` | src/game.c:49-54 | all cells of every listed line are on the board and ascend |
| `WinLines.SegmentsDistinct` | src/game.c:43-62 | no line is listed twice |
| `WinLines.EveryRunListed` | src/game.c:9-14 | every straight run of `goal` cells in any of the eight directions is listed, forwards or backwards |
| `WinLines.SegmentIsRun` | src/game.c:9-14 | every listed line is a straight run that fits on the board |
| `WinLines.BaseLadder` | include/game.h:15 | the four families together have WIN_PATT_LEN(n, goal) lines |
| `WinLines.FillSegmentLines` | src/game.c:43-62 | the four nested loops fill the segment table with line w at row w, for every n >= goal >= 2 |
| `WinLines.FillFamily` | src/game.c:46-60 | one family's loops extend the filled part of the table by exactly that family's lines |
| `WinLines.FillRun` | src/game.c:49-58 | one run's loop fills exactly its own row |
| `Game.LinesAreSegments` | src/game.c:7 | the 24-line table the game uses is the general one at n = 4, goal = 3 |
| `Game.CheckWinFirstLine` | src/game.c:23-41 | on any board the verdict is the side holding the first held line (O before X on it); drawn or open exactly when no line is held, by the presence of an empty cell |
| `Game.AnyLineIsStraightLine` | src/game.c:28-38 | a side holds a listed line exactly when it holds some straight run of three |
| `Game.CheckWinCellByCell` | src/game.c:23-41 | while at most one side has a line the verdict is the cell-by-cell one, in all four cases |
| `Game.OngoingHasMove` | src/game.c:40 | an open board has an empty cell |
| `Game.PlaceTakesOne` | include/game.h:35 | a stone on an empty cell uses up exactly one empty cell |
| `Game.EmptyCellsToAre` | include/game.h:39-41 | the empty-cell scan lists exactly the empty cells, ascending |
| `Game.AvailableMoves` | src/game.c:73-82 | the buffer holds the empty cells in ascending order, then -1 if there is room, then zeros |
| `Game.CountMoves` | src/negamax.c:46-48 | the counting loop recovers the number of moves from that buffer |
| `Game.EvalLineSegmentScore` | include/util.h:6-32 | the loop with its early exits computes the worth of a line: a power of ten by stones, zero once both sides are in it; whose side a sign is on is stated by StaticScore.LineScoreSign |
| `Game.GetScore` | include/util.h:34-42 | the sum of the worth of all lines; what a move adds to it is stated by StaticScore.MoveGains |
| `Game.ScoreFacts` | include/util.h:34-42 | the static score is zero-sum between the sides and within 2400 of zero |
| `Game.WinValueShared` | src/game.c:64-71 | whatever the verdict, the two sides' values add up to one unit; which side has it is stated by StaticScore.WinValueOfLines |
| `StaticScore.LineScoreSign` | include/util.h:13-31 | a line's score is positive for a side exactly when that side has a stone in it and the other has none, negative exactly the other way round, zero exactly when both or neither have |
| `StaticScore.LineScoreSize` | include/util.h:13-31 | in a line the other side is not in, one stone scores 1, two score 10, and exactly a whole line scores 100 |
| `StaticScore.LineScoreGrows` | include/util.h:13-31 | a stone in a line never lowers that line's score for its owner, and raises it exactly when the line is not mixed already |
| `StaticScore.MoveGains` | include/util.h:34-42 | a move never lowers the mover's static score, and raises it exactly when some line through the cell is not already mixed |
| `StaticScore.MoveCosts` | include/util.h:34-42 | the other side's score falls by exactly what the mover's rises |
| `StaticScore.WinValueOfLines` | src/game.c:64-71 | read off the cells: a line of one side only is worth one unit to it and nothing to the other; with no line at all both have half |
| `Minimax.ValueIsMax` | src/negamax.c:52-81 | at an inner node the value is the maximum over the moves and some move attains it |
| `Minimax.ValueBound` | src/negamax.c:44 | every value lies within 2400 of zero, so the starting score -10000 is below all of them |
| `Minimax.ValueIsMinimax` | src/negamax.c:57-59 | the sign-flipping value equals two-player minimax with O maximising and X minimising |
| `Minimax.ProbeThenResearch` | src/negamax.c:61-67 | a null-window probe, and a re-search above it when it lands inside, answer for the full window |
| `Minimax.BracketsNegated` | src/negamax.c:57-59 | an answer for the negated window is the negated answer |
| `Zobrist.ChainFindsNewest` | src/zobrist.c:62-70 | walking a bucket finds the newest put of the key, for any history of puts |
| `Zobrist.Table.Get` | src/zobrist.c:49-73 | found exactly when the key was put since the last clear, with the newest put's data; always a miss when the table was not allocated |
| `Zobrist.Table.Put` | src/zobrist.c:75-90 | the log of puts grows by this entry; nothing happens when the table was not allocated |
| `Zobrist.Table.Clear` | src/zobrist.c:92-108 | every bucket and the log are empty afterwards |
| `Keys.KeyDoUndo` | src/negamax.c:55-76 | XOR-ing a cell's word in gives the key of the board with the stone, XOR-ing it again restores the key; the word is the cell's first for O and its second for X |
| `Keys.KeyToRoot` | src/negamax.c:88-92 | the key of the root is zero |
| `DistinctKeys.KeysNeedNotCollide` | src/negamax.c:55-76 | there are words under which no two boards of a search have the same key, whatever the root: the claims made in the absence of collisions are about something |
| `Keys.ChildOnSearch` | src/negamax.c:57-67 | one move deeper is a node of the same search with one ply less and the other side to move |
| `Negamax.HitIsSameCall` | src/negamax.c:39-41 | without key collisions an entry found is the result of a call on the same board, remaining depth and side |
| `Negamax.DoUndoMove` | src/negamax.c:53-76 | doing and undoing a move on board and key comes back to where it started |
| `Negamax.TallyStep` | src/negamax.c:71-80 | one more move answered for the raised window keeps what the loop knows about its best score and move |
| `Negamax.TallyAnswers` | src/negamax.c:79-85 | when the loop cuts off or runs out, its best score is a correct fail-soft answer and its move is as good as claimed |
| `Negamax.SortedAreEmpties` | src/negamax.c:50 | after any sort the list still holds exactly the empty cells |
| `Negamax.Searcher.SortMoves` | src/negamax.c:50 | any permutation of the moves |
| `Negamax.Searcher.OrderedMoves` | src/negamax.c:45-50 | a non-empty list of exactly the legal moves |
| `Negamax.Searcher.TryMove` | src/negamax.c:53-76 | board and key are restored; without a table the score is a correct fail-soft answer for the move |
| `Negamax.Searcher.SearchMove` | src/negamax.c:56-68 | full window first, then probe and re-search: a correct answer for the window, key restored |
| `Negamax.Searcher.Research` | src/negamax.c:64-67 | the re-search answers for the rest of the window when there is no table; with a table, below any child that is not a leaf, it returns the probe's own score and move and stores nothing |
| `Negamax.Searcher.SearchMoves` | src/negamax.c:43-85 | the move loop: fail-soft correct without a table; the move legal and the score bounded with any table |
| `Negamax.Searcher.Search` | src/negamax.c:29-86 | leaf, hit and loop cases: score at or below alpha bounds the value from above, at or above beta from below, inside equals it (no table); a hit returns the newest entry and a miss stores its own result, so the answer is the newest entry for its key afterwards; key restored on every exit |
| `Negamax.Searcher.Predict` | src/negamax.c:94-104 | iterative deepening: legal move on an open board, -1 on a finished one; optimal under minimax to depth 6 without a table; table empty and key zero afterwards |
| `Negamax.WideWindowIsExact` | src/negamax.c:100 | the root window is wider than any score, so the root answer is exact |
| `Negamax.BestMoveIsOptimal` | src/negamax.c:71-74 | a move worth the node's value leads to the same minimax outcome as best play |
| `FixedPoint.FixedSqrtIsRoot` | src/mcts.c:38-51 | for x > 0 the result is the largest s below 2^(floor(log2 x)+1) with (s*s)>>16 <= x |
| `FixedPoint.LargestRootIsMax` | src/mcts.c:47 | nothing below the cap does better |
| `FixedPoint.FixedSqrtMonotone` | src/mcts.c:38-51 | the root is monotone |
| `FixedPoint.FixedSqrtUnrestricted` | src/mcts.c:38-51 | from one upwards it is the largest such s without any cap |
| `FixedPoint.FixedSqrtLoop` | src/mcts.c:38-51 | the bit loop, its square taken in 64 bits, computes that root for every 32-bit input |
| `FixedPoint.CandidateFits` | src/mcts.c:44-46 | the bits tried keep every candidate within 32 bits, so its square is exact in 64 |
| `FixedPoint.FixedLogNoWrap` | src/mcts.c:53-82 | the sum of the series stays far below the word size; the sign flag is set on the negative branch |
| `FixedPoint.FixedLogMonotone` | src/mcts.c:53-82 | from 2^16 up to 2^31+2^16 the logarithm is monotone despite the truncated powers |
| `FixedPoint.FixedLogLoop` | src/mcts.c:53-82 | the nested loops compute that logarithm for every 32-bit input |
| `FixedPoint.SumTerms` | src/mcts.c:69-78 | the outer loop with its inner power loop sums the odd terms |
| `FixedPoint.LogCoversVisits` | src/mcts.c:92-93 | for 2 to 100000 visits the logarithm of the argument is at least the visit count, sign-flag branch included |
| `FixedPoint.UctPositive` | src/mcts.c:86-98 | for every reachable visit count the score of a visited child is positive and no truncation loses anything |
| `FixedAccuracy.FixedLogNear` | src/mcts.c:53-82 | for every word but zero, either side of the sign flag: the ratio is (distance from one)/(v+1) rounded down, and the logarithm's magnitude is the exact ten-term series at that ratio, never over it and at most 40 units of 2^-16 under |
| `FixedAccuracy.ExplorationIs` | src/mcts.c:84 | the exploration factor is 92682, the largest 16.16 value whose square does not exceed two |
| `FixedAccuracy.UctFromParts` | src/mcts.c:86-98 | for every visit count a search can reach, the score is the child's mean plus its bonus: each quotient, the root and the product pinned by multiplication, nothing lost in the sum |
| `FixedAccuracy.MoreEarnedMoreScore` | src/mcts.c:91 | of two children with the same visits the one that earned more does not score less |
| `FixedAccuracy.VisitedLessTriedMore` | src/mcts.c:94-96 | the bonus does not grow with the child's own visits |
| `FixedAccuracy.NeglectedTriedMore` | src/mcts.c:92-96 | the score does not shrink as the parent's visits grow, up to 32768 of them |
| `MctsTree.BackpropBalances` | src/mcts.c:143-151 | backpropagation balances the whole tree: one visit more at the root, nothing else changed off the path |
| `MctsTree.CreditMovesShortage` | src/mcts.c:145-150 | crediting one node moves the imbalance, sign-flipped, to its parent |
| `MctsTree.VisitConserves` | src/mcts.c:184-194 | a visit that ends on a finished board with its value to the side that has just moved, or on an unvisited node with the value of some random game to the side to move, keeps the laws at every node |
| `MctsTree.ConservedScores` | src/mcts.c:143-205 | the laws written out: a finished node's score is its visits times its value; any other visited node has 1 + its children's visits, and the score of one random game plus a unit per child visit less what the child kept; no score exceeds one per visit |
| `MctsTree.FinishedScores` | src/mcts.c:184-189 | read off the cells of a finished node: where only the side that has just moved has a line, its score is a whole unit a visit; where only the other has, nothing; on a full board without a line, half |
| `MctsTree.ExpandConserves` | src/mcts.c:153-169 | expanding makes exactly one child per empty cell and keeps the laws |
| `MctsTree.ExpandShape` | src/mcts.c:159-166 | the children are the empty cells of the board on the path, played by the side to move |
| `MctsTree.KidVisitedLess` | src/mcts.c:145-150 | a child has strictly fewer visits than its parent |
| `MctsTree.RootVisitedMost` | src/mcts.c:145-150 | no node has more visits than the root |
| `MctsTree.StartConserved` | src/mcts.c:174 | the single-node tree satisfies the laws |
| `MctsTree.RootExpanded` | src/mcts.c:190-196 | after two visits an open root has all its children |
| `MctsTree.MostVisitedIsMax` | src/mcts.c:206-213 | the final scan picks the first child of most visits |
| `MctsTree.SelectNeverStuck` | src/mcts.c:100-116 | selection on an expanded node of a conserved tree never comes back empty-handed, and picks the first child of highest score, each scored by its own visits and score and its parent's visits |
| `Mcts.Backpropagate` | src/mcts.c:143-151 | the parent-pointer loop updates the heap as the tree-value function says |
| `Mcts.AddKid` | src/mcts.c:160-161 | one new child linked in |
| `Mcts.Expand` | src/mcts.c:153-169 | the heap after the loop is the expanded tree; the count returned is the number of empty cells |
| `Mcts.SelectMove` | src/mcts.c:100-116 | the heap scan returns the child the tree-value scan picks |
| `Mcts.Simulate` | src/mcts.c:118-141 | the rollout's value is that of some legal play-out to the end, between 0 and one |
| `MctsTree.LastCellRollout` | src/mcts.c:118-141 | a rollout with one cell left is worth a unit to the side that completes a line with it, and nothing if it completes the other's |
| `Playouts.RolloutIsPlayout` | src/mcts.c:118-141 | the values a rollout can have are exactly those of games in which the sides take turns on empty cells, the side to move first, until a move decides it |
| `Mcts.Engine.Iterate` | src/mcts.c:178-205 | one iteration keeps the laws, with the score the source gives to the node where the descent ends, keeps node count and board, and adds one root visit |
| `Mcts.Engine.Descend` | src/mcts.c:195-203 | expansion when needed, then a step to the selected child with its move on the board |
| `Mcts.Engine.FinishVisit` | src/mcts.c:184-194 | scoring the last node with what it earns keeps the laws and adds one root visit |
| `Mcts.Engine.Play` | src/mcts.c:171-217 | after any number of iterations: conserved tree, root visits = iterations done, active nodes = nodes; the move is -1 or an empty cell whose child has at least as many visits as every other |
| `Mcts.Engine.Choose` | src/mcts.c:206-214 | the final scan returns an empty cell whose child no other child exceeds in visits, or -1 without children |
| `Record.StonesAreSteps` | src/main.c:260-273 | a legal record of k moves leaves exactly k stones |
| `Record.StoneStays` | src/main.c:261-262 | a stone stays where its move put it, in the mover's colour |
| `Record.MovesDistinct` | src/main.c:262 | no cell is played twice |
| `Record.AppendMove` | src/main.c:260-273 | playing an empty cell and writing it at entry `steps` extends a legal record by one, and there was room |
| `Record.EpisodeRecorded` | src/main.c:267-271 | a learning worker's two writes add one correct entry to the episode |
| `Record.EpisodeKeepsPrefix` | src/main.c:262 | writing the next record entry leaves the episode's meaning alone |
| `ProtocolInvariant.InitInv` | src/main.c:756-767 | a freshly initialised game satisfies the invariant |
| `ProtocolInvariant.AiAlone` | src/main.c:251-279 | while one side's worker holds the lock, the other side, the timer and the finish worker cannot touch the game |
| `ProtocolInvariant.FinAlone` | src/main.c:484-503 | between its lock and its READY write the finish worker is alone with the game |
| `ProtocolInvariant.AiKeepsInv` | src/main.c:227-350 | every step of either AI worker keeps the invariant |
| `ProtocolInvariant.FinKeepsInv` | src/main.c:470-510 | every step of the finish worker keeps the invariant |
| `ProtocolInvariant.SoftKeepsInv` | src/main.c:361-570 | every step of the timer handler and the tasklet keeps the invariant |
| `ProtocolInvariant.DrawKeepsInv` | src/main.c:157-189 | every step of the draw worker keeps the invariant |
| `ProtocolInvariant.ReleaseKeepsInv` | src/main.c:651-676 | draining and the DONE-to-READY reset keep the invariant |
| `ProtocolInvariant.StepKeepsInv` | src/main.c:157-570 | every enabled step of every actor keeps the invariant |
| `ProtocolInvariant.RunKeepsInv` | src/main.c:157-676 | every state of every interleaving satisfies it |
| `ProtocolSafety.ReadyConsistent` | src/main.c:260-277 | in every interleaving a READY game's record replays to its table, its moves are distinct, stones = steps, and O is to move exactly on even steps |
| `ProtocolSafety.DoneConsistent` | src/main.c:492-503 | a DONE game's table is the replay of its record except between the finish worker's attribute and table writes; it is consistent altogether, turn included, exactly when neither that nor a turn of X not yet overwritten holds |
| `ProtocolSafety.OneOwner` | src/main.c:361-391 | BUSY exactly while one side holds the right to move; never both; a due finish implies DONE and nobody else |
| `ProtocolSafety.OneLockHolder` | src/main.c:251-279 | never two holders of the game's mutex |
| `ProtocolSafety.ReadsStayCurrent` | src/main.c:233-272 | the attributes and table a worker read before locking, and what it reads while writing, are current at each of its writes up to the attributes themselves; it is that side's turn, and the record entry and episode row it addresses are this game's |
| `ProtocolSafety.FramesConsistent` | src/main.c:174-186 | every frame handed out has record, step count and table in agreement |
| `ProtocolSafety.SavedWinIsVerdict` | src/main.c:533-551 | when the reset starts, the saved win is the verdict on the very board being reset |
| `ProtocolSafety.UpdatesBelongToOneGame` | src/main.c:492-508 | every episode handed to the learner holds, per step, nothing or that game's replayed board with its reward; the winner is the verdict on its last board |
| `ProtocolEpisodes.ExactFills` | src/main.c:264-272 | the two writes of a worker whose side learns fill the entry of its move exactly: that board, with what it is worth to that side |
| `ProtocolEpisodes.ExactSkips` | src/main.c:264-273 | a side that does not learn leaves the entry of its move blank |
| `ProtocolEpisodes.RunKeepsExact` | src/main.c:157-508 | in every state of every interleaving the episode holds exactly the moves so far of the sides that learn, between any two of its writes too |
| `ProtocolEpisodes.UpdatesComplete` | src/main.c:264-272 | every episode handed to the learner holds, for each move of a side that learns, the board after it and its worth to that side, and nothing for any other; the winner learns, so none of its moves is missing |
| `ProtocolLedger.LearnerHearsOfEveryGame` | src/main.c:491-507 | over every run the learner is called for exactly the finished games reset whose winner plays with the learning agent, in order, each once |
| `ProtocolLedger.EveryPictureDelivered` | src/main.c:157-188 | over every run the frames are exactly the pictures asked for while the display is on, less those the draw worker refused because the game was BUSY |
| `ProtocolLedger.AgentsDrawn` | src/main.c:253-314 | two agents packed as one number: X plays with the second, O with the sum of both modulo three, so with the first exactly when the second is agent 0 |
| `ProtocolProgress.StepCounts` | src/main.c:157-668 | every step that starts nothing new uses up one of the steps left |
| `ProtocolProgress.WorkEnds` | src/main.c:157-668 | however the steps interleave, after at most 198 of them all that is going on has ended, unless the timer fires or the device is opened or closed |
| `ProtocolProgress.NeverStuck` | src/main.c:157-668 | no deadlock: in every reachable state that is not at rest somebody can take a step, and who is named |
| `ProtocolProgress.AtRestIdle` | src/main.c:157-668 | at rest the lock is free and the game is READY or DONE |
| `ProtocolProgress.CloseEnds` | src/main.c:651-668 | the last close is over after at most 198 steps of all the actors together |
| `ProtocolProgress.CloseLeavesReady` | src/main.c:660-665 | when it ends the game is READY, with nothing queued or going on |
| `ProtocolWitness.WonGame` | src/main.c:512-570 | a concrete run, O on 0, 1, 2 and X on 4, 5, to a READY game of five steps that O has won, X to move |
| `ProtocolWitness.CaughtMidReset` | src/main.c:499-500 | a concrete run to a DONE game whose table is not the replay of its record |
| `ProtocolWitness.CaughtWithStaleTurn` | src/main.c:500-502 | a concrete run to a DONE game whose record and table are a new game's while the turn is still X's |
| `ProtocolLateMove.RunTellsTruly` | src/main.c:523-562 | in every run, what the tasklet is told is true of the game, READY and undecided, unless the pass that told it had found the game BUSY |
| `ProtocolLateMove.LateDispatchNeedsBusyLook` | src/main.c:526-530 | in every interleaving, a dispatch that meets a won or full board was told by a pass that had found the game BUSY |
| `ProtocolLateMove.LateMove` | src/main.c:527-530 | a concrete run in which the sixth stone goes on a board the fifth had won |
| `RecencyMap.FindValid` | src/rl-state.c:48-79 | after a lookup the board is held, boards are distinct and at least one slot is free |
| `RecencyMap.FindIsLookup` | src/rl-state.c:48-79 | a hit changes no score; a miss holds the initial scores and changes no surviving entry, and drops none unless the cache was full |
| `RecencyMap.PutIsWrite` | src/rl.c:44-46 | writing a score changes that side of that board only |
| `RecencyMap.InitialPerSide` | src/rl-state.c:70-73 | each side's initial score is six times its own static score, so the two are each other's negatives |
| `RecencyMap.EvictExact` | src/rl-state.c:26-46 | an eviction removes exactly three fifths of the capacity, rounded down, off the front |
| `RecencyMap.FindKeepsOrder` | src/rl-state.c:55-77 | never-hit boards come first, newest first, then hit boards, least recently hit first |
| `RecencyMap.LookupsOrdered` | src/rl-state.c:48-79 | that order holds after every sequence of lookups from the empty cache |
| `RecencyMap.VictimsInOrder` | src/rl-state.c:34-44 | no hit board is evicted while a never-hit one stays, and of the hit ones the least recently hit go |
| `RecencyMap.EvictsLeastRecentIff` | src/rl-state.c:34-44 | after any lookups that fill the cache, an eviction takes the least recently used exactly when the first board that stays has been hit and the head of the list was last used before it |
| `RecencyMap.NotLeastRecentlyUsed` | src/rl-state.c:61-76 | for any n distinct boards at capacity n above two: after lookups of all but one that fill the cache, the first used twice, a miss on the last board drops the board used last and keeps the one used longest ago |
| `RecencyMap.LruFails` | src/rl-state.c:61-76 | at every capacity from 3 to 3^16 such lookups exist: a miss drops a board used after one it keeps |
| `RecencyMap.CapacityCovered` | src/rl-state.c:10-11 | the capacity in use, 16384, is one of those |
| `RlFixed.FixedMulS32Exact` | include/ai-game.h:43-47 | a small factor times a static score is exact |
| `RlFixed.UpdateNoOverflow` | src/rl.c:42-45 | within the bound the 32-bit results are the plain floored quotients: nothing wraps |
| `RlFixed.UpdateKeepsBound` | src/rl.c:42-46 | the bound of one hundred either way survives the update, floor rounding included |
| `RlState.AbsStands` | src/rl-state.c:14-24 | slots, bitmap, chains and list in agreement stand for a valid map with recency list |
| `RlState.TouchRefines` | src/rl-state.c:56 | moving a slot to the tail is the map's hit |
| `RlState.InsertRefines` | src/rl-state.c:65-77 | filling a free slot is the map's insertion |
| `RlState.DropHeadRefines` | src/rl-state.c:38-43 | dropping the head slot removes exactly its board |
| `RlState.RescoreRefines` | src/rl.c:44 | writing a slot's scores writes that board's scores |
| `RlState.StateCache.BitmapWeight` | src/rl-state.c:61 | the number of bits set is the number of slots on the list |
| `RlState.StateCache.FindFirstZeroBit` | src/rl-state.c:65 | a clear bit always exists and the first one is found |
| `RlState.StateCache.DropFirst` | src/rl-state.c:38-43 | one victim: its board leaves the map, everything else stays |
| `RlState.StateCache.CleanState` | src/rl-state.c:26-46 | the eviction loop is the map's eviction |
| `RlState.StateCache.MakeRoom` | src/rl-state.c:61-62 | evicts exactly when only one slot is free; afterwards there is room |
| `RlState.StateCache.Search` | src/rl-state.c:53-55 | the chain walk finds the slot exactly when the board is held |
| `RlState.StateCache.MoveToTail` | src/rl-state.c:56 | a hit as the map sees it |
| `RlState.StateCache.AddState` | src/rl-state.c:65-78 | an insertion as the map sees it, with the initial scores |
| `RlState.StateCache.FindState` | src/rl-state.c:48-79 | the whole lookup is the map's lookup, and the slot returned is the board's |
| `RlState.StateCache.WriteScore` | src/rl.c:44-45 | a write through the returned pointer is the map's write |
| `Learning.StepKeepsBound` | src/rl.c:37-47 | one update keeps every score and the value handed back within the bound |
| `Learning.BackwardKeepsBound` | src/rl.c:49-62 | so does the update of a whole episode |
| `EpisodeValues.StepTeaches` | src/rl.c:37-47 | one update of a board, with room in the cache: its score for the side is the blend of its old or initial score with the reward less the discounted next value, in numbers; the other side's score and every other board are untouched |
| `EpisodeValues.BackwardTeaches` | src/rl.c:49-62 | the same of every recorded board of an episode of distinct boards, for any value that comes after its last |
| `EpisodeValues.EpisodeTeaches` | src/rl.c:49-62 | over the cache an episode leaves: every recorded board's score is that blend with the final value of the next recorded board, nothing after the last; the other side's scores and all other boards are as they were |
| `Learning.RunsStayBounded` | src/rl.c:10-62 | over every run of lookups, evictions and episodes with rewards between 0 and one, all scores stay in the bound |
| `ProtocolLearning.UpdateIsEpisode` | src/main.c:504-506 | every update a game hands out is an episode of the form the learner's bound assumes: enough entries, rewards between nothing and one, a real winner |
| `ProtocolLearning.GamesKeepBound` | src/main.c:504-506 | whatever games run, however they interleave, and whatever is looked up between: all the learner's scores stay in the bound |
| `ProtocolLearning.EpisodeBoardsDiffer` | src/main.c:264-266 | no board occurs twice in an episode a game hands out |
| `ProtocolLearning.WonGameTeaches` | src/main.c:504-506 | given to a cache with room, a won game changes the score after every one of the winner's moves by that rule, and leaves the loser's scores |
| `Learning.Agent.Play` | src/rl.c:10-34 | an empty cell whose score, as seen, no other empty cell exceeds; -1 exactly on a full board; the cache changes only by the lookups |
| `GreedyPlay.BestIsGreedy` | src/rl.c:18-31 | with room in the cache, no legal move leads to a board that was learnt, or at first estimated, to be worth more to the mover than the one played |
| `Learning.Agent.Peek` | src/rl.c:21 | one lookup and the side's score |
| `Learning.Agent.StepUpdate` | src/rl.c:37-47 | the memory after one update is the map's update, and nothing overflowed |
| `Learning.Agent.Update` | src/rl.c:49-62 | the backward loop over an episode, blank entries skipped; what it leaves in the cache is stated by EpisodeValues.EpisodeTeaches |
| `Bits.SetCellIsPlace` | include/game.h:35 | writing a cell's two bits is placing a stone, and touches no other cell |
| `Bits.GetSetSameCell` | include/game.h:93-106 | a cell reads back as written |
| `Bits.GetSetOtherCell` | include/game.h:93-106 | the other cells read as before |
| `Bits.CellsInjective` | src/rl-state.c:55 | equal boards have equal words, so comparing words compares boards |
| `Bits.PackRoundTrip` | include/game.h:35-37 | every board has a word that reads back as it |
| `Bits.ZeroWord` | src/game.c:25-26 | the zero word is the empty board |
| `Bits.SetRecordCellIsUpdate` | include/game.h:27-28 | writing a record entry updates that entry of the record and no other |
| `Bits.AppendMoveInWords` | src/main.c:261-262 | on the packed words, a worker's two writes keep board and record in step |
| `Bits.AttrStepsField` | include/game.h:22-24 | the step count reads back as written and leaves id and agents alone |
| `Bits.AttrAiAlgField` | include/game.h:23-26 | both agents read back as written, id and step count untouched |
| `Bits.AgentPairNumber` | include/game.h:23-26 | as a number the pair is the first agent plus four times the second |
| `WinMasks.DetectEmptyCellIs` | src/game.c:16-21 | the two-mask trick is true exactly when a cell is empty |
| `WinMasks.MaskTestsO` | src/game.c:30-32 | the mask test holds exactly when O holds the line |
| `WinMasks.MaskTestsX` | src/game.c:34-37 | the shifted mask test holds exactly when X holds the line |
| `WinMasks.FillPatterns` | src/game.c:55-57 | pattern w is the mask of line w |
| `WinMasks.ScanPatterns` | src/game.c:28-40 | the scan over the masks gives the verdict of the line scan |
| `WinMasks.CheckWinWord` | src/game.c:23-41 | the routine on the word agrees with the verdict on the board, early exit included |
| `Xoroshiro.StepLinear` | src/xoroshiro.c:14-25 | the state step is linear over XOR |
| `Xoroshiro.UnstepStep` | src/xoroshiro.c:14-25 | an explicit inverse undoes the step |
| `Xoroshiro.StepUnstep` | src/xoroshiro.c:14-25 | and the step undoes the inverse: the step is a bijection |
| `Xoroshiro.StepsInjective` | src/xoroshiro.c:14-25 | any number of steps keeps different states different; only zero leads to zero |
| `Xoroshiro.NeverZero` | src/xoroshiro.c:48-51 | from the module's seed the state never becomes zero |
| `Xoroshiro.FirstWords` | src/xoroshiro.c:10-51 | from the module's seed: the first three words delivered and the states between, in numbers |
| `Xoroshiro.JumpLinear` | src/xoroshiro.c:27-46 | a jump is linear, for every jump constant |
| `Xoroshiro.JumpCommutes` | src/xoroshiro.c:27-46 | jumping then stepping k times equals stepping k times then jumping, for every constant |
| `Xoroshiro.JumpsCommute` | src/xoroshiro.c:27-46 | two jumps with any constants commute |
| `Xoroshiro.SingleMark` | src/xoroshiro.c:34-42 | a constant with the one bit k jumps exactly k steps |
| `Xoroshiro.OrderIrrelevant` | src/xoroshiro.c:14-46 | however steps and jumps are interleaved, the state depends only on their totals |
| `Xoroshiro.Generator.Next` | src/xoroshiro.c:14-25 | the in-place step and the word it returns |
| `Xoroshiro.Generator.JumpBy` | src/xoroshiro.c:31-45 | the nested loops compute the XOR of the states at the marked distances |
| `Xoroshiro.Generator.Jump` | src/xoroshiro.c:27-46 | the same for the module's constant |
| `Scheduling.FirstFree` | user/coro.c:207-212 | the first free slot, or none |
| `Scheduling.StepKeepsQueue` | user/coro.c:165-185 | every event keeps: ready exactly when queued, queued once |
| `Scheduling.StepKeepsControl` | user/coro.c:187-273 | every event keeps: running only the one on the processor, done only the one just back |
| `Scheduling.RunKeepsInv` | user/coro.c:165-273 | both hold after every run |
| `Scheduling.ReadyIffQueuedOnce` | user/coro.c:165-273 | in every run, a coroutine is ready exactly when it is on the queue, at one place |
| `Scheduling.RunReturnsQuiet` | user/coro.c:245-273 | when the loop leaves, the queue is empty and every slot is free or blocked |
| `Scheduling.MovesUp` | user/coro.c:165-185 | until its turn a coroutine moves up one place per resumption and at nothing else |
| `Scheduling.ResumedAfterExactly` | user/coro.c:245-266 | a coroutine at position k is resumed by the dispatch after exactly k others, and by none of those |
| `Scheduling.QueuedThenResumed` | user/coro.c:236-266 | a coroutine that has just yielded, been woken or been started is resumed by the dispatch after exactly those that were queued before it, and by none of those |
| `Scheduling.BlockedUntilWoken` | user/coro.c:301-343 | a blocked coroutine stays blocked and off the queue, and nobody resumes it, until it is woken |
| `Scheduling.FinishedIsFree` | user/coro.c:187-270 | a coroutine that finishes has given its slot back once the scheduler has settled it |
| `Scheduling.LoopAlwaysMoves` | user/coro.c:247-262 | at the loop head the scheduler dispatches exactly when somebody is ready, and otherwise leaves |
| `Scheduler.CoSched.Enqueue` | user/coro.c:165-173 | the linked list represents the queue with the coroutine appended |
| `Scheduler.CoSched.Dequeue` | user/coro.c:175-185 | the head leaves the linked list; null on an empty queue |
| `Scheduler.CoSched.FindFree` | user/coro.c:206-214 | the pool scan finds the first free slot |
| `Scheduler.CoSched.MakeReady` | user/coro.c:232-233 | state and queue change together |
| `Scheduler.CoSched.StartCo` | user/coro.c:203-234 | the start event; nothing happens without a slot or a stack |
| `Scheduler.CoSched.WakeCo` | user/coro.c:316-317 | the wake event |
| `Scheduler.CoSched.YieldCo` | user/coro.c:236-243 | the yield event: ready again and last in the queue; when it goes on is stated by Scheduling.QueuedThenResumed |
| `Scheduler.CoSched.BlockCo` | user/coro.c:306-307 | the suspension event |
| `Scheduler.CoSched.FinishCo` | user/coro.c:194-195 | the finish event |
| `Scheduler.CoSched.AnyBlocked` | user/coro.c:251-254 | the scan reports whether a slot is blocked |
| `Scheduler.CoSched.NextCo` | user/coro.c:247-266 | one pass of the loop head: dispatch of the first in the queue, or leaving on an empty one |
| `Scheduler.CoSched.SettleCo` | user/coro.c:268-270 | a finished coroutine's slot becomes free |
| `Rings.PushAppends` | user/coro.c:310-312 | a push adds at the end of the contents for any capacity >= 1, disturbing nothing |
| `Rings.PopTakesFirst` | user/coro.c:332-334 | a pop removes the oldest |
| `Channels.StepKeepsInv` | user/coro.c:301-343 | every attempt keeps order and waiter conditions |
| `Channels.RunKeepsInv` | user/coro.c:301-343 | they hold at every moment of every run |
| `Channels.DeliveredInOrder` | user/coro.c:301-343 | what was received is a prefix of what was sent, which is a prefix of what was offered; the ring holds the difference |
| `Channels.NoLostWakeup` | user/coro.c:303-320 | a suspended receiver is registered and the channel empty, a suspended sender is registered and the channel full; never both |
| `Channels.WokenGoesThrough` | user/coro.c:314-341 | a woken party goes through at its next turn |
| `Conversation.TurnIsEvent` | user/coro.c:303-341 | every turn in the channel is one scheduler event or none: the unchecked wake-up always meets a blocked coroutine |
| `Conversation.ActKeepsInv` | user/coro.c:165-343 | turns of the two parties and any other scheduler events keep both systems' invariants and the parties' places |
| `Conversation.RunKeepsInv` | user/coro.c:165-343 | they hold in every state of every combined run |
| `Conversation.RegisteredIsBlocked` | user/coro.c:305-340 | in every run, whoever is registered in the channel is blocked and off the queue; whoever was woken is on the queue or running |
| `Conversation.LeftSuspended` | user/coro.c:245-273 | when the scheduler loop leaves, nobody woken is left behind, and a party is still suspended only if the other is not in the channel and it is full, or empty with everything offered delivered |
| `Channel.CoChan.Store` | user/coro.c:310-312 | the in-place write is a push |
| `Channel.CoChan.Take` | user/coro.c:332-334 | the in-place read is a pop |
| `Channel.CoChan.Opens` | user/coro.c:286-299 | a fresh channel on a fresh scheduler is an initial state of the combined system |
| `Channel.CoChan.TrySend` | user/coro.c:303-319 | in any reachable state, one turn of the send loop leaves channel and scheduler in memory as the combined system's sender turn does; the value is appended exactly when there was room |
| `Channel.CoChan.TryRecv` | user/coro.c:325-341 | in any reachable state, one turn of the receive loop leaves both as the receiver's turn does; the oldest value is delivered exactly when there was one |

## Left out

- History heuristic counters (src/negamax.c:12-27, 69-70): the order of moves is an arbitrary permutation, which covers every state of the counters.
- Failed allocation of a single transposition entry (src/zobrist.c:82-83) or tree node (src/mcts.c:22-23, 162-165): taken to succeed.
- Negamax.Searcher.Search: exactness is claimed only when the table was not allocated, since with it a cut-off node's bound is stored and returned like an exact value (src/negamax.c:41, 84).
- Zobrist.Table.Get: buckets are sequences, so the linking of entries through list pointers is not modelled; nor are the spin locks.
- Optimality of Monte Carlo search: finished boards are scored for the side that just moved and rollouts for the side to move (src/mcts.c:185-191); only conservation, legality and the choice rule are proved.
- Mcts.Simulate: the draws are arbitrary; that they come from the generator is not used.
- That a jump equals 2^64 steps, and how near the ten-term series comes to the logarithm itself.
- EpisodeValues.EpisodeTeaches: stated for a cache with room for the episode; when an eviction falls inside an update the boards evicted start again from their static score.
- GreedyPlay.BestIsGreedy: stated for a cache with room for the looks; with an eviction among them the maximum is over the scores as seen (Learning.Agent.Play).
- FixedPoint.UctPositive: the shift of a visit count of 32768 or more overflows a signed word in C; it is modelled as wrapping to the same bits.
- ProtocolSafety.DoneConsistent: the unconditional claim is false; the condition is exact in both directions.
- Protocol: one game is modelled; games share only the learning arrays, which are addressed by game id. Writes to both learning arrays by the final clear are one step each. A new open during the last close (src/main.c:621-660) is excluded by assumption.
- RlState.StateCache.FindState: boards are abstract values and the hash any function; list and chains are sequences of slot numbers rather than linked nodes.
- Scheduler.CoSched.StartCo: functions, arguments and stacks of coroutines are not part of this model, nor is the assembly context switch.
- Channel.CoChan.TrySend: one sender and one receiver; several on one side share a single waiter slot (user/coro.c:282-283).
- Weak-memory effects, the frame fifo, character device, sysfs, ioctl, poll, load averages, module set-up and tear-down.
- The terminal interface, the shell hooks and the scripts.
