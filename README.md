# todorust — a Dafny model of the todo store

todorust is a command-line todo list. Each run loads a state from the file
`.todocli`, applies exactly one command (`list`, `add`, `toggle`, `remove`)
and writes the state back. The state maps each entry name to an entry that
holds one flag, `checked`.

This project models that logic in two modules:

- `Store` (`store.dfy`) holds the entry map and its three in-place handlers.
  - The handlers are methods of the class `State`, whose field `entries` is a
    `map<string, Entry>`.
  - `State.Add`, `State.Toggle` and `State.Remove` are each proved equal to a pure
    function of the old map (`Added`, `Toggled`, `Removed`). The laws of the
    handlers are lemmas about those functions: add is idempotent, toggle is an
    involution, a second remove finds nothing.
  - `State.List` models `handle_list`. It walks the keys in an order it does not fix:
    each step picks any unvisited name, which stands in for `HashMap` iteration.
    It returns the printed lines. The proof shows they are exactly the lines of
    the visible entries, one per entry, with no line twice. Nothing promises
    their order.
  - A listing line can be read back (`ParseLine`). That makes the string printed
    for an entry unique to the entry.
- `Cli` (`cli.dfy`) holds the command datatype `Opt`, the dispatcher of `main`,
  and one whole run: load, dispatch, save.
  - Storage is reduced to parameters. The stored file arrives as `Stored`: it could
    not be read, it could not be parsed, or it was decoded into a map. Whether the
    final write succeeds is a boolean.
  - `Run` proves what one run does. The saved state is the loaded state changed by
    that one command, and List leaves it unchanged. A load failure is only a
    warning. Provided that console writes succeed, a run fails only when the save fails.

## Model

| member | source | states |
|---|---|---|
| `Store.Added` | src/main.rs:107-111 | after add, the name is a key with an unchecked entry, whatever it held before; every other key and value is unchanged |
| `Store.Toggled` | src/main.rs:113-118 | a present entry's flag is negated and no other entry changes; an absent name leaves the map as it was, with no entry created |
| `Store.Removed` | src/main.rs:121-127 | after remove, the name is not a key and the rest is the old map without it; removing an absent name changes nothing |
| `Store.AddIdempotent` | src/main.rs:107-111 | adding a name twice gives the same state as adding it once |
| `Store.AddForgetsOldFlag` | src/main.rs:107-111 | re-adding a name gives the same state whatever flag its entry had, so a checked entry is reset |
| `Store.ToggleInvolution` | src/main.rs:113-118 | toggling a name twice restores the original map, whether the name is present or not |
| `Store.RemoveTwice` | src/main.rs:121-126 | after a remove the name is absent, so a second remove finds nothing and leaves the map unchanged |
| `Store.IsShown` | src/main.rs:91-95 | an entry is shown iff (checked and not hide-checked) or (unchecked and not hide-unchecked); both flags hide everything, neither flag hides nothing |
| `Store.Checkbox` | src/main.rs:97-101 | the box is three characters, and it is `[x]` exactly when the entry is checked and `[ ]` exactly when it is not |
| `Store.RenderLine` | src/main.rs:102 | a printed line is four characters longer than the name: the box and one space |
| `Store.ParseRenderLine` | src/main.rs:97-102 | reading a printed line back gives the name and the checked flag it was printed for |
| `Store.RenderLineInjective` | src/main.rs:97-102 | two entries that differ in name or in flag never print the same string |
| `Store.Visible` | src/main.rs:90-96 | only names of existing entries are listed |
| `Store.Listing` | src/main.rs:89-105 | the set of printed lines holds the line of every entry the rule shows, and every line in it reads back to an existing entry whose flag matches its box and which the rule shows |
| `Store.ListingMembership` | src/main.rs:89-105 | the line `box name` is in the listing iff `name` is an entry, its flag matches the box, and the visibility rule lets it through |
| `Store.VisibleExtremes` | src/main.rs:91-95 | with both hide flags nothing is listed; with neither, every entry is listed |
| `Store.VisiblePartition` | src/main.rs:91-95 | hide-checked lists exactly the unchecked entries; it and hide-unchecked split the full listing into two disjoint parts |
| `Store.State.Default` | src/main.rs:31-34 | the default state has no entries |
| `Store.State.FromEntries` | src/main.rs:72-80 | a decoded state holds exactly the decoded entries |
| `Store.State.Add` | src/main.rs:107-111 | the new map is `Added` of the old one |
| `Store.State.Toggle` | src/main.rs:113-118 | the new map is `Toggled` of the old one; `found` is false exactly when the not-found line is printed |
| `Store.State.Remove` | src/main.rs:121-127 | the new map is `Removed` of the old one; `found` is false exactly when the not-found line is printed |
| `Store.State.List` | src/main.rs:89-105 | in some order, the lines printed are exactly the listing of the entries: one per visible entry, none twice; the state is not modified |
| `Cli.Loaded` | src/main.rs:63-81 | a decoded file gives its entries; a read or parse failure gives the empty state |
| `Cli.CurrentState` | src/main.rs:63-81 | a fresh state holds the loaded entries; an unreadable file warns ReadError, an unparsable one warns ParseError, and a decoded one warns nothing |
| `Cli.Step` | src/main.rs:49-56 | the saved map after a command: List keeps the map; Add adds the name unchecked; Toggle keeps the keys and flips a present entry; Remove drops the name; no command changes another name's entry |
| `Cli.StepTouchesOnlyItsName` | src/main.rs:49-56 | no command changes any entry but the one it names, and List changes none |
| `Cli.DistinctNamesCommute` | src/main.rs:49-56 | two commands on different names give the same state in either order |
| `Cli.Dispatch` | src/main.rs:49-56 | each command changes the state by its own handler's effect; List alone prints a listing, and toggle or remove of an absent name alone prints not-found |
| `Cli.Run` | src/main.rs:41-61 | the saved state is the loaded one changed by exactly the command, or left unchanged for List; a load failure only warns; with console writes assumed to succeed, the run fails exactly when the save fails |
| `Cli.SingleListing` | src/main.rs:89-105 | the listing of a one-entry state with no flags is that entry's line alone |
| `Cli.MilkSession` | src/main.rs:41-61 | runs of add, list, toggle, list, list hiding checked entries, remove and list on "milk" print `[ ] milk`, `[x] milk`, nothing, nothing |

## Left out

- Reading and writing `.todocli` (`src/main.rs:63-87`) is left out because it is file I/O. The read result and the decoded content are the `Stored` parameter. The success of the write is the `writeSucceeds` parameter of `Run`.
- JSON encoding and decoding through `serde_json` is left out because it is library code not part of this model. So is the save-then-load round trip that rests on it.
- A serialisation failure in `save_state` is folded into `writeSucceeds`.
- Command-line parsing through `structopt` (`src/main.rs:9-29`, `42`) is left out because it is library code. `Opt` is the already-parsed command.
- Console output is represented by values, not strings written to streams. This covers the separator line (`src/main.rs:47`), the not-found line (`src/main.rs:117`, `125`) and the load warnings' texts. The not-found line becomes the `found` flag or the `NotFound` outcome. The warnings become `LoadError`. Listing lines are returned as strings.
- The not-found line goes to standard output (`println!`, src/main.rs:117, 125). The load warnings go to the error stream (`eprintln!`, src/main.rs:67, 75). The model does not model streams.
- Cli.Run: assumes every console write succeeds. `println!` and `eprintln!` panic when their stream cannot be written. The separator `println!` (src/main.rs:47) runs before the dispatch and the save, so with standard output unwritable the program panics, exits non-zero and saves nothing. `Run` does not model that path.
- A name containing a newline spans several output lines. For example, the unchecked entry `a\n[x] b` prints `[ ] a` followed by `[x] b`. `ParseRenderLine` and `RenderLineInjective` are about the string passed to `println!`, not the lines a reader sees.
- `Store.State.List` does not fix the order of its lines. The order of a `HashMap` is unspecified, so only the set of lines, their count and their distinctness are stated.
- `Store.State.Toggle` does not model in-place mutation through `get_mut`. It replaces the map's value with the negated entry. `Entry` is a plain value with no aliases, so the resulting map is the same.
- Concurrent runs against the same file are left out. The last writer wins, and that is outside the single-run logic.
