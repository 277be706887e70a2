# prepare — a Dafny model

`prepare` is meant to become a command-line tool. It walks directory trees and prints them as a prompt for a language model. Only a few parts of it hold real logic, and this project models those:

- **The filter stack** (`prepare.py`). It is a LIFO stack of exclusion filters. A path is excluded when any filter on the stack matches it. `Filter` itself is a stub in the tool, so each filter here is just the predicate over paths that it decides. `FilterStack` is a class whose `stack` field holds a sequence. Its methods update that field in place, as the Python list is updated by `append` and `pop`.
- **The tree node** `Content` (`prepare.py`). A node is a file exactly when it has no child list.
- **Flag resolution** (`prepare.py`). This is the end of `parse_arguments`. It turns the parsed flags `-G -g -p -a -v -s` and the depth into a `Properties` record: a log mode (`-s` overrides `-v`), the ignore kinds in the fixed order GIT, GITIGNORE, PREPAREIGNORE, HIDDEN, and the depth (6 when `-d` is not given). `ResolveArguments` keeps the source's step-by-step assignments. `PropertiesOf` is the declarative definition it is proved against.
- **The rock-paper-scissors toy** (`test/rock-paper-scissor`). This covers the hand comparison, the round's verdict and the opponent menu. The two bugs marked in the source are reproduced as written, not fixed:
  - the comparison lists the pair (2, 3) where (2, 0) is meant, so scissor and rock never beat each other;
  - the entered number is used as the hand type without subtracting one.
- `user > opponent` is modelled as Python evaluates it. `Hand` defines only `<`, so the comparison becomes `opponent < user`.

Modules: `Wrappers` (Option, Result), `Builtins` (Python list subscription and `str.strip`), `Prepare`, `Model` (the hand) and `Game`.

Some behaviours of the code worth stating explicitly:

- `str(hand)` is Python list indexing, so it also succeeds for hand types -3..-1, which count from the end of the name list. It is an IndexError outside -3..2.
- The depth is any integer, since nothing checks that it is non-negative.
- The ignore kinds form an ordered list.
- `pop_filter` on an empty stack raises IndexError. The model returns that error as a result and leaves the stack unchanged.

## Model

| member | source | states |
|---|---|---|
| `Builtins.Subscript` | test/rock-paper-scissor/src/model/hand.py:8 | Python list indexing: succeeds exactly for -len..len-1, counts negative indices from the end, IndexError otherwise |
| `Builtins.Strip` | test/rock-paper-scissor/src/game.py:26 | `str.strip()`: a slice of the input whose ends are not whitespace, with only whitespace cut off around it; empty exactly when the input is all whitespace |
| `Builtins.StripPadded` | test/rock-paper-scissor/src/game.py:26 | stripping any surrounding whitespace from an unpadded string gives that string back |
| `Prepare.AnyMatch` | prepare.py:26-30 | the reference definition of stack matching: an empty stack matches nothing, and a stack whose bottom filter matches the path matches it |
| `Prepare.AnyMatchExists` | prepare.py:26-30 | the stack matches a path iff some filter in it matches the path |
| `Prepare.EmptyMatchesNothing` | prepare.py:26-30 | an empty stack excludes no path |
| `Prepare.AnyMatchAppend` | prepare.py:26-30 | matching over two stacked groups of filters is the OR of matching over each |
| `Prepare.AnyMatchPermutation` | prepare.py:26-30 | any reordering of the filters matches the same paths |
| `Prepare.FilterStack.constructor` | prepare.py:17-18 | a new stack is empty |
| `Prepare.FilterStack.AddFilter` | prepare.py:20-21 | the filter goes on top; the earlier filters stay, in order |
| `Prepare.FilterStack.PopFilter` | prepare.py:23-24 | removes exactly the top filter and keeps the rest; on an empty stack it returns `Failure(IndexError)` and leaves the stack empty |
| `Prepare.FilterStack.IsMatch` | prepare.py:26-30 | the early-exit scan returns true iff some filter on the stack matches the path; it changes nothing |
| `Prepare.PushThenPop` | prepare.py:20-24 | pushing a filter and then popping restores the previous stack |
| `Prepare.MatchAfterPush` | prepare.py:20-30 | after a push, the stack matches what it matched before, plus what the new filter matches |
| `Prepare.Content.IsFile` | prepare.py:39-40 | a node is a file exactly when it carries no child list |
| `Prepare.Content.IsDirectory` | prepare.py:39-43 | a node is a directory iff it has a child list, and it is never both a file and a directory |
| `Prepare.DepthOf` | prepare.py:75-81 | the depth is the value given to `-d`, or 6 when `-d` is absent |
| `Prepare.LogModeOf` | prepare.py:107-112 | the log mode is always one of VERBOSE(4), DEFAULT(3), SILENCE(2), and it is SILENCE whenever `-s` is set |
| `Prepare.IgnoresOf` | prepare.py:114-123 | the ignore list holds only the four ignore kinds, and at most four entries |
| `Prepare.PropertiesOf` | prepare.py:107-127 | the resolved properties: a given depth is kept, the log mode is one of the three modes, and there are at most four ignore kinds |
| `Prepare.ResolveArguments` | prepare.py:107-127 | the step-by-step log-mode and ignore-list assignments produce exactly `PropertiesOf(args)`, and the sources are passed through |
| `Prepare.LogModeResolution` | prepare.py:107-112 | SILENCE whenever `-s`; VERBOSE iff `-v` without `-s`; DEFAULT iff neither; always one of 4, 3, 2 |
| `Prepare.IgnoresMembership` | prepare.py:114-123 | each ignore kind is listed iff its flag is set, and nothing else is listed |
| `Prepare.IgnoresOrdered` | prepare.py:114-123 | the ignore list is strictly decreasing, i.e. in the order GIT(9), GITIGNORE(8), PREPAREIGNORE(7), HIDDEN(6); it has no duplicates, at most 4 entries, one per set flag |
| `Prepare.DepthPassesThrough` | prepare.py:125-127 | a depth given with `-d` is passed through unchanged; without `-d` it is 6 |
| `Prepare.ExampleCommandLine` | prepare.py:107-127 | `src -d 3 -g -v` gives depth 3, ignores [GITIGNORE], log mode VERBOSE |
| `Model.Name` | test/rock-paper-scissor/src/model/hand.py:2-8 | `str(hand)` is defined iff the type is in -3..2; types 0, 1 and 2 are rock, paper and scissor; negative types name from the end of the list |
| `Model.Less` | test/rock-paper-scissor/src/model/hand.py:13-15 | `a < b` iff a's type is in 0..2 and b's type is one more, which includes the wrong pair (2, 3) |
| `Model.Equal` | test/rock-paper-scissor/src/model/hand.py:17-18 | `a == b` iff the hands are equal, i.e. have the same type |
| `Model.LessIrreflexive` | test/rock-paper-scissor/src/model/hand.py:15 | no hand is less than itself |
| `Model.LessAsymmetric` | test/rock-paper-scissor/src/model/hand.py:15 | `a < b` and `b < a` never both hold |
| `Model.EqualReflexiveSymmetric` | test/rock-paper-scissor/src/model/hand.py:17-18 | hand equality is reflexive and symmetric |
| `Model.LessOnRealHands` | test/rock-paper-scissor/src/model/hand.py:15 | among types 0..2, only rock<paper and paper<scissor hold; scissor and rock are incomparable both ways |
| `Game.UserHand` | test/rock-paper-scissor/src/game.py:7-9 | the user's hand type is the entered number, without subtracting one |
| `Game.Decide` | test/rock-paper-scissor/src/game.py:14-19 | win iff the opponent's type is in 0..2 and the user's is one more (the reflected `<`); draw iff the types are equal; lose otherwise |
| `Game.PlayGame` | test/rock-paper-scissor/src/game.py:9-19 | the round fails with IndexError iff a hand's type is outside -3..2, before any comparison; otherwise its outcome is the verdict on the two hands |
| `Game.SelectOpponent` | test/rock-paper-scissor/src/game.py:26-33 | after stripping, "1" selects the random opponent, "2" the smart one, and anything else selects none |
| `Game.Session` | test/rock-paper-scissor/src/game.py:26-33 | no round is played for an unknown choice; otherwise one round is played against the chosen provider's hand |
| `Game.SwappedRound` | test/rock-paper-scissor/src/game.py:14-19 | swapping the players turns a win into a loss, and a draw stays a draw |
| `Game.EnteredNumberIsType` | test/rock-paper-scissor/src/game.py:9 | entering 1 plays paper, 2 plays scissor, and 3 plays an unnamed type 3 |
| `Game.EnteringThreeFails` | test/rock-paper-scissor/src/game.py:9-12 | entering 3 raises IndexError at the announcement, whatever the opponent plays |
| `Game.RockScissorBothLose` | test/rock-paper-scissor/src/game.py:14-19 | user rock against opponent scissor is a loss, and so is user scissor against opponent rock |
| `Game.MenuIgnoresPadding` | test/rock-paper-scissor/src/game.py:26-30 | "1" or "2" with any surrounding whitespace selects the same opponent as without it |

## Left out

- Argument parsing itself (prepare.py:62-105) is left out. `Arguments` holds what the flag parser returns: the sources, the value given to `-d` if any, and the six flags. The default of 6 for `-d` is applied by `DepthOf` through `DEFAULT_DEPTH`. Checking that at least one source is given is also left out.
- `scan_from`, `content_to_prompt` and the bodies of `Filter` (`__init__`, `add_condition`, `is_match`) are left out. They are empty stubs with no behaviour. A filter is modelled as an arbitrary predicate over paths.
- Both `main` functions, every `print` and `input`, `__repr__` of `Hand` and `Properties`, and `pathlib` are left out. The typed-in text and numbers are parameters.
- `int(...)` raising ValueError on non-numeric input is left out, because the entered move is an integer parameter.
- `get_random_hand` and `get_ai_hand` are left out. Their module is not part of this model, and one of them uses randomness. The hands they return are parameters of `Game.Session`.
- `Builtins.Strip` is stated as Python's `str.strip()` over the characters that `str.isspace()` accepts. That set is spelled out as a list of character ranges and was not derived from a Unicode table.
