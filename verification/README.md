# sok_bevy core, modelled in Dafny

sok_bevy draws the Stack Exchange tag graph as a universe: each Stack
Exchange site (a *domain*) is a galaxy, each tag is a planet, and two tags
that are often used together are joined by a connection. This project models
the data layer behind that picture and the in-game debug console, and proves
what they promise.

- **Tags** (`tags.dfy`). A `ConnectedTag` is a related tag with its
  co-occurrence count. A domain's relation map sends a tag name to its
  related tags. The Rust `HashMap` is a Dafny `map` paired with the order in
  which its keys are iterated (`RelationMap`). The cost of stepping to a
  related tag is `1000 / count`. `Neighbours` lists the successors of a tag
  with these costs.
- **Sorting and loading** (`sorting.dfy`, `relation.dfy`). Loading a
  relation file sorts every tag list by count, highest first, with a stable
  sort. `SortByCount` is characterised as *the* stable descending sort: the
  output is non-increasing, a permutation of the input, and keeps the input
  order within each count. Any list with those three properties equals it.
  The top-N query returns a prefix of the stored list; on a loaded domain
  that prefix holds the strongest relations. The domain name is the file
  name up to its first `.`.
- **Shortest path** (`paths.dfy`, `search.dfy`). `find_path` refuses a goal
  that is not a key of the map. Otherwise it returns a cheapest path from
  the start tag (count 0) to a tag named like the goal. The model computes
  the path by repeated edge relaxation and states the answer relationally:
  - the result is a walkable path;
  - its cost is the sum of its step costs;
  - no walkable path to the goal is cheaper;
  - `None` means the goal is unreachable;
  - a start equal to the goal gives the one-node path at cost 0.
- **Universe** (`universe.dfy`). `generate_universe_cartography` makes
  three passes over the domains:
  1. one galaxy per domain;
  2. one planet per tag that is a key somewhere;
  3. the connections.

  Pass 3 shares one explored set across all domains. A key's entries whose
  names were already explored get no connection, so no two distinct tags are
  ever connected in both directions. The connections are exactly the pairs
  of a key and a name in its list that was not explored when the key's turn
  came.
- **Debug console** (`console.dfy`). Received characters edit the input
  line. Enter (LF or CR) queues the line, and backspace drops the line's
  last character. One queued command is processed per frame; "FPS", in any
  letter case, flips the FPS display. F1 shows or hides the console.

Where the code and its documented intent disagree, the model follows the
code:

- The comment on `belong_galaxy` (src/universe.rs:15) says a planet
  belongs to every domain that has its tag. Pass 2 only inserts
  the domain in which the planet was first discovered (src/universe.rs:44-57).
  So every planet's home set is that single domain (`HomesAreFirstHolders`).
- The explored set of pass 3 is one set for all domains
  (src/universe.rs:63). An edge of a later domain towards a tag explored in
  an earlier domain is dropped, even when no domain holds the reverse edge.
  The model keeps this shared set.
- A path from a tag to itself is only answered when that tag is a key of
  the map. `find_path` checks the goal before searching (src/data.rs:85-86),
  so for a tag with no list of its own the answer is `None`.

## Model

| member | source | states |
|---|---|---|
| Tags.Neighbours | src/data.rs:20-35 | A tag that is not a key has no successors. Otherwise the successors are its stored list, in order, each paired with weight 1000/count; a pair is a successor exactly when its tag is stored under the tag's name and its weight is that tag's weight. |
| Tags.WeightAntitone | src/data.rs:29 | A more frequent co-occurrence never costs more to step to, and no step costs more than 1000. |
| Paths.StepIsNeighbour | src/data.rs:87-93 | The steps a path may take are exactly the successors `neighbours` offers to the search, at the weight offered. |
| Sorting.InsertByCount | src/data.rs:54-59 | Inserting into a list ordered by count, highest first, keeps it ordered and adds exactly the one entry. |
| Sorting.SortByCount | src/data.rs:54-59 | The sorted list is non-increasing in count, a permutation of the input, and lists the entries of each count in their input order. |
| Sorting.SortByCountIsTheStableSort | src/data.rs:54-59 | A list is non-increasing, a permutation and order-preserving within each count if and only if it is the sort's output, so the stable descending sort is unique. |
| Relation.Load | src/data.rs:47-65 | Loading keeps the domain, the keys and their iteration order. It replaces every tag list by its stable descending sort, so every stored list is ranked, and it keeps counts positive. |
| Relation.FindTopN | src/data.rs:67-78 | An unknown tag gives nothing. For a key, the result is the first min(n, length) stored entries, in stored order. |
| Relation.TopNOfLoaded | src/data.rs:54-78 | On a loaded domain the top-N result is non-increasing and has min(n, length) entries taken from the file's list. No entry left out counts more than one kept, and all entries come back once n reaches the length. |
| Relation.DomainName | src/data.rs:116 | The domain is the longest prefix of the file name without a '.', and it stops at the first '.' when there is one. |
| Relation.DomainNameOfStem | src/data.rs:115-116 | `stem.ext` and a bare `stem` both name domain `stem`. |
| Relation.GetAllRelations | src/data.rs:99-125 | One domain per file, in directory order. Each is named by its file name's prefix up to the first '.'. Each has the file's keys and iteration order, and every list stably sorted. |
| Paths.ShortenPath | src/data.rs:80-96 | Every walkable path has one to the same name that costs no more and has no more nodes than there are names. This is why a bounded search can find the cheapest path. |
| Search.Relax | src/data.rs:87-94 | One relaxation round keeps every recorded path walkable and no dearer. It reaches every successor of a reached name at a cost no higher than going through that name. |
| Search.CoversAfterRelax | src/data.rs:87-94 | If every path of at most k steps is answered at no higher cost, a round answers every path of at most k+1 steps. |
| Search.FindPath | src/data.rs:80-96 | A goal that is not a key gives `None`. A result is a walkable path from the start (count 0) to the goal, its cost the sum of its step weights, and no walkable path to the goal is cheaper. `None` for a key goal means no path reaches it, and start = goal gives the one-node path at cost 0. |
| Universe.CollectGalaxies | src/universe.rs:29-36 | Exactly one galaxy per domain name, named after it. |
| Universe.DiscoverInDomain | src/universe.rs:43-58 | Each key of a domain not yet discovered becomes a planet with no connections whose only home is that domain. Planets already discovered are left exactly as they were. |
| Universe.DiscoverPlanets | src/universe.rs:38-59 | There is one planet per key of any domain, named after it and without connections. Its home set is the single first domain that has the key. |
| Universe.NewConnections | src/universe.rs:69-81 | A key gets at most one connection per entry. A connection is made exactly for the entries whose name is unexplored, carrying that entry's count and the pair (key, entry name). |
| Universe.NewConnectionsOfOne | src/universe.rs:69-81 | A single entry gives one connection, for the pair (key, entry name) with the entry's count, when its name is unexplored, and none otherwise. |
| Universe.NewConnectionsSplit | src/universe.rs:69-81 | The connections for a list are those for its first part followed by those for the rest, so together with the one-entry case they come one per unexplored entry, in list order, duplicates included. |
| Universe.ExploreEntry | src/universe.rs:67-83 | Processing one entry appends the new connections to that key's planet only and marks the key explored. Every other planet is unchanged. |
| Universe.LinkedAfterEntry | src/universe.rs:67-83 | After one entry, a pair is linked exactly when it was linked before or it runs from the key to an unexplored name in the key's list. |
| Universe.ExploreDomain | src/universe.rs:67-83 | Pass 3 over one domain explores all its keys. It keeps every planet's name and home and only appends connections. It preserves the invariant that links start at explored names and no distinct pair is linked both ways. |
| Universe.ConnectPlanets | src/universe.rs:61-84 | Pass 3 over all domains, with one shared explored set, explores every key and only appends connections. It preserves the no-two-way-links invariant. |
| Universe.ExploreDomainMakesLinks | src/universe.rs:67-83 | Pass 3 over one domain connects a key to every name in its list that was explored neither before the domain nor by an earlier key of it. |
| Universe.ConnectPlanetsMakesLinks | src/universe.rs:61-84 | Across all domains, a key is connected to every name in its list that no earlier domain or earlier key of the same domain explored. |
| Universe.UniverseLinksAreStoredEdges | src/universe.rs:61-84 | Every connection of the finished universe runs from a key to a name stored in that key's list by some domain. |
| Universe.GenerateUniverse | src/universe.rs:24-93 | There is a galaxy per domain and a planet per key, each named after its key, with the first holding domain as its only home. No two distinct tags are connected in both directions. |
| Universe.UniverseLinksUnexploredEdges | src/universe.rs:24-93 | The finished universe connects a key to every name in its list that was not explored before that key was reached. |
| Universe.ExploreDomainOnlyFreshLinks | src/universe.rs:67-83 | Pass 3 over one domain adds no other links: each new link runs from a key to a name in its list that neither the earlier domains nor an earlier key of this domain had explored. |
| Universe.ConnectPlanetsOnlyFreshLinks | src/universe.rs:61-84 | Across all domains, with the one shared explored set, every new link is such a fresh edge of some domain. A listed name already explored by an earlier domain is never linked. |
| Universe.UniverseLinksExactlyFreshEdges | src/universe.rs:24-93 | The universe links `a` to `b` if and only if some domain lists `b` under its key `a`, and `b` is neither a key of an earlier domain nor an earlier key of that domain. This fixes the universe's edge set exactly. |
| Console.ReceiveChar | src/debug.rs:278-291 | A line end queues the current line and clears it. A backspace removes the line's last character, if any, and leaves the queue alone. Any other character is appended to the line. |
| Console.UpdateConsoleInput | src/debug.rs:272-294 | A frame with no characters changes nothing. Otherwise the displayed text is the current line. The queue only grows at its back, by one command per line end. |
| Console.BackspaceUndoesTyping | src/debug.rs:284-290 | Typing an ordinary character and then backspace restores the console exactly. |
| Console.TypingAppends | src/debug.rs:288-290 | Typing ordinary characters appends them to the line and leaves the queue alone. |
| Console.EnterQueuesTypedWord | src/debug.rs:279-290 | A word typed followed by Enter queues the whole line, the earlier text followed by the word, at the back of the queue; the line and displayed text become empty. |
| Console.ToUpper | src/debug.rs:305 | Upper-casing keeps the length and upper-cases each character in place. |
| Console.CommandsProcessor | src/debug.rs:296-318 | An empty queue changes nothing. Otherwise the first command is removed, the rest keep their order, the line is untouched, and the FPS display flips exactly when the command is "FPS" in any case. |
| Console.FpsCommandSpelling | src/debug.rs:305-307 | A command is the FPS command exactly when it is the three letters f, p, s, each in either case. |
| Console.DrainQueue | src/debug.rs:296-318 | Commands are taken first in, first out. One frame per queued command empties the queue and leaves the line alone. The FPS display ends up flipped exactly when an odd number of commands were "FPS". |
| Console.ToggleConsole | src/debug.rs:92-103 | The console's state changes exactly when F1 was just pressed. |
| Console.FirstCommandFromStartup | src/debug.rs:31-38 | Starting from the initial state (empty line and queue, console and FPS display off, src/debug.rs:57-62), F1 shows the console, and a typed word with Enter is processed next frame: the queue is empty again and the FPS display is on exactly when the word is "FPS". |
| Console.ToggleTwice | src/debug.rs:92-103 | Pressing F1 twice restores the console's state. |

## Left out

- Reading the dataset directory and parsing the JSON files (`read_dir`, `File::open`, serde) are left out, and so are their `expect`/`unwrap` aborts and the `println!`. `GetAllRelations` receives each file's name with its already parsed map, in directory order.
- Hash-map iteration order is unspecified in the source. The model takes it as an explicit input (`RelationMap.order`), and every result is proved for every order.
- The Dijkstra routine of the external `pathfinding` crate is not modelled. `Search.FindPath` computes the cheapest path its own way. When several paths tie for cheapest it may return a different one than the crate does; the contract promises only some cheapest path.
- Cloning the relation map on every `neighbours` call has no observable effect and is not modelled.
- Tags.Neighbours: requires every stored count to be at least 1. For counts of 0 or below, the source's floating-point division saturates to `i32::MAX` or yields a negative weight; neither is modelled.
- Search.FindPath: requires positive counts (see above). Costs are unbounded naturals, so a path whose summed cost would overflow `i32` is not modelled.
- Counts and costs are unbounded integers; 32-bit wrap-around of counts is not modelled.
- Console.CommandsProcessor: upper-cases ASCII letters only. Rust's `to_uppercase` is full Unicode, so a command such as "fpſ" (long s) matches "FPS" in the source but not in the model.
- Console.ToUpper: ASCII letters only, for the same reason.
- Console.FpsCommandSpelling: characterises the ASCII-only test; the source's Unicode `to_uppercase` also accepts spellings such as "fpſ".
- Bevy rendering and scheduling are not modelled: UI set-up, text sections and fonts, the console and FPS visibility systems, the FPS diagnostics read by `update_fps`, `exit_control` (it calls `std::process::exit`), event readers and system sets. The console text the model tracks is the one string `update_console_input` writes.
- `query.single_mut()` panics when there is not exactly one console text entity; this is not modelled.
- src/main.rs, src/scene.rs and src/camera.rs (window, scene and camera set-up) are not part of this model.
