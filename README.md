# SmokesCS2 lineup selector — Dafny model

SmokesCS2 is a small React Native app for Counter-Strike 2 utility lineups. The user picks a map, then a side (`CT` or `TR`), then a utility (`Smoke`, `Flash` or `Molotov`). The app then lists the lineups stored for that triple. Each lineup has an id, a name, an image URL and a video URL.

This project models the logic of `App.js`:

- **Catalog** (`catalog.dfy`). The three fixed domains `MAPS`, `SIDES` and `UTILITIES`. The nested table `lineupData` (map → side → utility → list of lineups) with its hand-written Dust II entry. `demoLineup`. The startup `MAPS.forEach` fill. Its loop is the method `FillLoop`, proved against the specification function `FillWith`; `FillMissing` runs it over `MAPS` with the demo entry, which yields `Filled`. The lemmas prove four things about the fill:
  - it never overwrites an entry that is already there;
  - every map it adds gets exactly one record per side/utility pair, with id `map-side-utility`;
  - running it twice changes nothing;
  - after startup, every (map, side, utility) triple of the domains has a non-empty list, and no two records share an id.

  Demo ids come with an inverse, `ParseDemoId`, which splits an id on `-`. Its round-trip lemma shows that distinct triples whose names contain no `-` get distinct ids (every triple of the domains qualifies; `DemoIdInjective`). Without that side condition ids can collide: `Dust-II`, `CT`, `Smoke` and `Dust`, `II-CT`, `Smoke` would both give `Dust-II-CT-Smoke`.
- **Selection** (`selection.dfy`). The class `Selector` holds the three `useState` fields. `None` stands for the empty string the component uses for "not chosen". The class has the three `onSelect` handlers as `Choose*` methods and the memoised `lineups` list as the function `Lineups()`. A side can be chosen only once a map is set, and a utility only once a side is set. These rules are method preconditions, because the component disables those controls until then. `Valid()` is the invariant that every reachable state keeps. `Startup` builds the filled catalog and the initial state. `DustTwoSession` and `MirageSession` are concrete user sessions on that catalog.
- `wrappers.dfy` holds the `Option` type.

The repository has a second variant of this screen, `app/(tabs)/index.tsx`. It filters a flat list of records that carry their own map, side and type, and it makes no promise that every triple has a record. `App.js`, which this project models, works differently. It indexes a nested table with optional chaining and falls back to an empty list. So a triple that is in the domains but missing from the table gives `[]`, and list order is the stored order. `App.js` also fills every missing map with demo records at startup, so in `App.js` every triple of the domains does have at least one record.

## Model

| member | source | states |
|---|---|---|
| Catalog.DemoId | App.js:83 | the id of a demo record is the map, `-`, the side, `-`, the utility, in that order: its length is the three lengths plus two, the separators sit right after the map and right after the side, and the three slices between them are the map, the side and the utility |
| Catalog.DemoLineup | App.js:82-87 | `demoLineup(map, side, utility)`: its id is `DemoId` of the triple, its name is `${utility} padrão ${side} - ${map}`, and its image and video are the demo image and demo video shared by every generated record |
| Catalog.DemoEntry | App.js:91-102 | the entry written for a missing map has exactly the sides of SIDES, each with exactly the utilities of UTILITIES, and each of those holds the one-element list `[demoLineup(map, side, utility)]` |
| Catalog.Lookup | App.js:134 | `lineupData[m]?.[s]?.[u] ?? []`: empty when the map, the side or the utility level is missing, and otherwise exactly the stored list |
| Catalog.Split | App.js:83 | the inverse of the id template, used only to prove that demo ids are distinct: an id splits into at least one piece, and no piece contains the `-` separator |
| Catalog.SplitSingle | App.js:83 | part of the inverse of the id template, used only to prove that demo ids are distinct: a string without `-` is a single piece |
| Catalog.SplitAfter | App.js:83 | part of the inverse of the id template, used only to prove that demo ids are distinct: splitting `a-b`, where `a` has no `-`, gives `a` followed by the pieces of `b` |
| Catalog.DemoIdRoundTrip | App.js:82-87 | the id of `demoLineup(map, side, utility)` reads back as exactly that triple, when none of the three contains `-` |
| Catalog.DomainsHaveNoSeparator | App.js:15-17 | no map, side or utility name contains `-` |
| Catalog.DemoIdInjective | App.js:83 | two demo records built from domain values have equal ids only if they were built from the same map, side and utility |
| Catalog.DemoEntryShape | App.js:91-102 | a generated map entry has exactly the sides CT and TR, each with exactly Smoke, Flash and Molotov, each a one-element list holding `demoLineup(map, side, utility)` with id `map-side-utility` |
| Catalog.FillWith | App.js:89-104 | the fill over any list of maps and any entry generator: the keys afterwards are the old keys plus the list, every entry already present is kept unchanged, and every missing map of the list holds its generated entry |
| Catalog.FillWithSnoc | App.js:90-91 | visiting one more map leaves the table unchanged when `lineupData[map]` is already set, and otherwise writes exactly that map's entry and nothing else |
| Catalog.FillLoop | App.js:89-104 | the `forEach` loop over a list of maps, writing an entry only where `lineupData[map]` is missing, yields exactly `FillWith` of the table, the list and the generator |
| Catalog.Filled | App.js:89-104 | after the startup fill, the table's keys are the old keys plus all of MAPS, every entry already present is kept unchanged, and every missing map of MAPS holds its demo entry |
| Catalog.FillMissing | App.js:89-104 | the `forEach` loop over MAPS with the demo entry yields exactly `Filled(t)` |
| Catalog.FilledIdempotent | App.js:90 | filling an already filled table changes nothing |
| Catalog.FilledDemoRecord | App.js:89-104 | looking up a filled map at any side/utility pair of the domains gives exactly one record, whose id is `map-side-utility` |
| Catalog.FilledPosition | App.js:89-104 | any record stored under a map that the fill added sits at position 0 of a list whose map, side and utility are in the domains, and is the demo record of that triple |
| Catalog.FilledComplete | App.js:89-104 | if every map already present has a non-empty list for each side/utility pair, the filled table has one for every map, side and utility of the domains |
| Catalog.DustTwoComplete | App.js:19-80 | the hand-written Dust II entry has a non-empty list for every side/utility pair |
| Catalog.StartupDustTwo | App.js:19-80 | for every side and utility, the startup fill leaves the Dust II list exactly as written by hand |
| Catalog.StartupDustTwoExample | App.js:22-43 | in the startup table, Dust II / CT / Smoke holds two records, the Xbox smoke then the Long smoke, and Dust II / CT / Flash holds the one Retake B flash |
| Catalog.StartupMaps | App.js:89-104 | the startup table holds exactly the maps of MAPS and keeps the hand-written Dust II entry |
| Catalog.StartupComplete | App.js:89-104 | after startup every map, side and utility of the domains has a non-empty list |
| Catalog.DustTwoIds | App.js:19-80 | the hand-written Dust II ids all start with `d` and are pairwise distinct |
| Catalog.DemoIdLeadsWithMap | App.js:83 | a demo id starts with the first letter of its map, and no map of MAPS starts with `d` |
| Catalog.FilledIdsUnique | App.js:89-104 | if the ids of a table are unique and all start with `d`, they stay unique after the fill |
| Catalog.StartupIdsUnique | App.js:192 | no two positions of the startup table hold records with the same id, so ids are usable as React list keys |
| Selection.Selector.constructor | App.js:128-130 | initially no map, side or utility is chosen, and the state is valid |
| Selection.Selector.Lineups | App.js:132-135 | the list is empty unless map, side and utility are all set; when they are, it is the list stored at `[map][side][utility]`, or empty if any level is missing; on a complete catalog in a valid state it is non-empty exactly when all three are set |
| Selection.Selector.ChooseMap | App.js:159-163 | choosing a map sets it, clears side and utility, keeps the state valid and empties the visible list |
| Selection.Selector.ChooseSide | App.js:170-174 | enabled only once a map is set; choosing a side keeps the map, sets the side, clears the utility and empties the visible list |
| Selection.Selector.ChooseUtility | App.js:181-182 | enabled only once a side is set; choosing a utility changes only the utility, and the visible list becomes the stored list for the triple; choosing the same utility again changes neither the state nor the list |
| Selection.Startup | App.js:89-104 | at startup the catalog is the filled table, it is complete, its ids are unique, and nothing is chosen |
| Selection.DustTwoSession | App.js:132-135 | Dust II / CT / Smoke shows both hand-written smokes in stored order; switching to Flash shows the one flash; choosing another map then empties the list |
| Selection.MirageSession | App.js:132-135 | Mirage / TR / Molotov shows exactly the generated demo record for that triple |

## Left out

- Rendering: the `OptionGroup` component, the cards, the result-title string and the styles (App.js:106-125, 146-240). These are presentation only.
- `openVideo` (App.js:137-144). It is an async call to the platform's `Linking.canOpenURL`/`openURL` and `Alert`. These are foreign calls, and their only logic is that a URL the platform cannot open is never passed to `openURL`.
- `app/video.tsx`. It is a details screen that reads route parameters and opens a browser. This is foreign I/O. Its only logic is a null check on the video URL and placeholder fallbacks.
- `app/(tabs)/index.tsx` is not part of this model. It is the flat-list variant of the same screen, which filters a list of records that carry their own map, side and type.
- FillMissing: `App.js` mutates the module-level object `lineupData` in place. The model returns the new table instead, and `Startup` hands it to the `Selector`. So aliasing of that object is not modelled.
- The selection fields hold `Option<string>` rather than the raw strings. `None` is the empty string. The `Choose*` methods accept only values from the option lists the controls display (App.js:157, 168, 179).
- Image and video URLs are opaque strings. Nothing about their contents is modelled.
