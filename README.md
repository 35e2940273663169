# open-m3u8 `Playlist` and its `Builder`, in Dafny

This project models the `Playlist` value type of the open-m3u8 HLS library
and its fluent `Playlist.Builder`, and proves the rules the builder keeps.

A `Playlist` holds exactly one of a master playlist or a media playlist. It
also carries an "extended" flag, an "iframes only" flag and a compatibility
version (a Java `int`, at least `MIN_COMPATIBILITY_VERSION` = 1). It is
immutable. The only way to make one is `Builder.build()`, and
`buildUpon()` seeds a new builder from an existing playlist.

The builder has five mutable fields. Each `with*` setter checks its guard
first and throws before it changes anything:
- `withMasterPlaylist` throws `IllegalStateException` while a media playlist is set.
- `withMediaPlaylist` throws `IllegalStateException` while a master playlist is set.
- `withExtended(false)` throws `IllegalStateException` while a master playlist is set.
- `withCompatibilityVersion(v)` throws `IllegalArgumentException` when `v < 1`.
- `withIframesOnly` always succeeds.

`build()` only throws when neither slot is set.

Layout:
- `playlist.dfy`, module `M3u8Playlist`, holds the types and the builder.
  - `Playlist` is a datatype. Its destructors are the getters, `HasMasterPlaylist`/`HasMediaPlaylist` are the `has*` tests, and `BuildUpon` is `buildUpon()`.
  - `BuilderState` is the builder's five fields as a value.
  - `Fresh`, `Seed`, `MasterStep`, `MediaStep`, `IframesOnlyStep`, `ExtendedStep`, `VersionStep` and `BuildResult` specify each builder operation as a pure function.
  - `Builder` is a class with the five fields. Each of its methods is proved to follow its step function.
- `playlist_properties.dfy`, module `PlaylistProperties`, holds the lemmas.
  - They cover any sequence of setter calls, and what `buildUpon()` then `build()` gives back.

Java `null` is `Option.None`. A thrown exception is `Outcome.Threw(kind)` from a setter, or `Result.Failure(kind)` from `build()`.

The builder invariant `Consistent` has three parts:
- master and media are never both set;
- master set implies extended;
- version is at least 1.

It holds for a fresh builder. Every setter preserves it, whether the setter succeeds or throws. As a result, every playlist a builder produces satisfies `Playlist.Valid`: exactly one kind, a master is extended, and the version is at least 1.

Two passages of the class comment describe more than the code does, and this model follows the code:
- The class comment says "on each `build()` method the provided parameters are validated" (Playlist.java:4-6). The code checks exclusivity, the extended rule and the version only inside the setters, with `IllegalStateException` and `IllegalArgumentException`. `build()` checks nothing but "some slot is set" (`BuildResult`'s contract).
- The class comment says `buildUpon()` makes a builder "with all the data from the object itself" (Playlist.java:29-31). The code drops the iframes-only flag (see Findings).

## Model

| member | source | states |
|---|---|---|
| M3u8Playlist.Fresh | src/main/java/com/iheartradio/m3u8/data/Playlist.java:98-106 | a fresh builder has no master, no media, both flags false and version `MIN_COMPATIBILITY_VERSION`, and is consistent |
| M3u8Playlist.Builder.constructor | src/main/java/com/iheartradio/m3u8/data/Playlist.java:99-106 | `new Builder()` is in the fresh state and satisfies the builder invariant |
| M3u8Playlist.Builder.Seeded | src/main/java/com/iheartradio/m3u8/data/Playlist.java:108-113 | the private constructor stores master, media, extended and version as given, and leaves iframes-only false |
| M3u8Playlist.Playlist.HasMasterPlaylist | src/main/java/com/iheartradio/m3u8/data/Playlist.java:66-68 | `hasMasterPlaylist()` is true exactly when `getMasterPlaylist()` is non-null |
| M3u8Playlist.Playlist.HasMediaPlaylist | src/main/java/com/iheartradio/m3u8/data/Playlist.java:70-72 | `hasMediaPlaylist()` is true exactly when `getMediaPlaylist()` is non-null |
| M3u8Playlist.Seed | src/main/java/com/iheartradio/m3u8/data/Playlist.java:94-96 | the state `buildUpon()` seeds copies master, media, extended and version but has iframes-only false; it is consistent when the playlist is valid |
| M3u8Playlist.Playlist.BuildUpon | src/main/java/com/iheartradio/m3u8/data/Playlist.java:94-96 | returns a new builder in the `Seed` state, valid whenever the playlist is |
| M3u8Playlist.ExtendedStep | src/main/java/com/iheartradio/m3u8/data/Playlist.java:138-145 | throws IllegalState, changing nothing, exactly when a master is set and the flag is false; otherwise changes only the extended flag; preserves the invariant |
| M3u8Playlist.Builder.WithExtended | src/main/java/com/iheartradio/m3u8/data/Playlist.java:138-145 | outcome and new fields are those of `ExtendedStep`; a valid builder stays valid |
| M3u8Playlist.MasterStep | src/main/java/com/iheartradio/m3u8/data/Playlist.java:115-122 | throws IllegalState, changing nothing, exactly when a media playlist is set; otherwise sets the master slot (null clears it) and forces extended to true, leaving media, iframes-only and version alone; preserves the invariant |
| M3u8Playlist.Builder.WithMasterPlaylist | src/main/java/com/iheartradio/m3u8/data/Playlist.java:115-122 | outcome and new fields are those of `MasterStep`, reached by chaining into `WithExtended(true)`; a valid builder stays valid |
| M3u8Playlist.MediaStep | src/main/java/com/iheartradio/m3u8/data/Playlist.java:124-131 | throws IllegalState, changing nothing, exactly when a master is set; otherwise changes only the media slot; preserves the invariant |
| M3u8Playlist.Builder.WithMediaPlaylist | src/main/java/com/iheartradio/m3u8/data/Playlist.java:124-131 | outcome and new fields are those of `MediaStep`; a valid builder stays valid |
| M3u8Playlist.IframesOnlyStep | src/main/java/com/iheartradio/m3u8/data/Playlist.java:133-136 | never throws and changes only the iframes-only flag; preserves the invariant |
| M3u8Playlist.Builder.WithIframesOnly | src/main/java/com/iheartradio/m3u8/data/Playlist.java:133-136 | outcome and new fields are those of `IframesOnlyStep`; a valid builder stays valid |
| M3u8Playlist.VersionStep | src/main/java/com/iheartradio/m3u8/data/Playlist.java:147-154 | throws IllegalArgument, changing nothing, exactly when the version is below 1; otherwise changes only the version; preserves the invariant |
| M3u8Playlist.Builder.WithCompatibilityVersion | src/main/java/com/iheartradio/m3u8/data/Playlist.java:147-154 | outcome and new fields are those of `VersionStep`; a valid builder stays valid |
| M3u8Playlist.BuildResult | src/main/java/com/iheartradio/m3u8/data/Playlist.java:156-162 | throws IllegalState exactly when neither slot is set, otherwise copies all five fields unchanged; from a consistent state the playlist is valid |
| M3u8Playlist.Builder.Build | src/main/java/com/iheartradio/m3u8/data/Playlist.java:156-162 | returns `BuildResult` of the fields (so it fails exactly when both slots are empty), changes nothing, and a valid builder only ever builds a valid playlist |
| PlaylistProperties.Apply | src/main/java/com/iheartradio/m3u8/data/Playlist.java:115-154 | any one setter call leaves the state as it was when it throws, and preserves the invariant |
| PlaylistProperties.RunPreservesConsistency | src/main/java/com/iheartradio/m3u8/data/Playlist.java:99-154 | any sequence of setter calls, with exceptions caught, keeps a consistent builder consistent |
| PlaylistProperties.EveryBuiltPlaylistIsValid | src/main/java/com/iheartradio/m3u8/data/Playlist.java:156-161 | after any setter calls on `new Builder()`, `build()` either throws IllegalState or returns a playlist with exactly one kind, extended if master, version at least 1 |
| PlaylistProperties.RebuiltPlaylistIsValid | src/main/java/com/iheartradio/m3u8/data/Playlist.java:94-113 | a built playlist passed through `buildUpon()`, any setter calls and `build()` is valid again |
| PlaylistProperties.BuildUponThenBuild | src/main/java/com/iheartradio/m3u8/data/Playlist.java:94-96 | `buildUpon().build()` on a valid playlist succeeds and reproduces master, media, extended and version, with iframes-only reset to false |
| PlaylistProperties.BuildUponWithMedia | src/main/java/com/iheartradio/m3u8/data/Playlist.java:45-47 | `buildUpon().withMediaPlaylist(d)` throws exactly for a master playlist; otherwise `build()` gives the original with only the media slot replaced (and iframes-only false) |
| PlaylistProperties.BuildUponDropsIframesOnly | src/main/java/com/iheartradio/m3u8/data/Playlist.java:94-96 | some valid playlist is not reproduced by `buildUpon().build()` |
| PlaylistProperties.SeedAll | src/main/java/com/iheartradio/m3u8/data/Playlist.java:29-31 | seeding with all five fields makes `build()` reproduce every valid playlist exactly |

## Left out

- The contents of `MasterPlaylist` and `MediaPlaylist`, and their builders, are not part of this model. Each is an opaque value told apart by a handle.
- `TrackData` and `TrackInfo` from the usage example in the class comment are not part of this model.
- The exception message strings are left out. Only the exception class is modelled.
- Fluent chaining (each setter returns `this`) and object identity are left out. Each setter is a method that mutates the builder and returns its `Outcome`.
  - `PlaylistProperties.Run` models a caller that catches each exception and keeps using the builder. A chain cut short by its first exception stops at a prefix of that run.
- The M3U8 parser (`ExtendedM3uParser`), its STRICT and LENIENT modes, and the types its test builds (`MediaData`, `StreamInfo`, `TrackData`, `TrackInfo`) are not part of this model.
  - Their sources are not available.
  - The test's byte-stream decoding is I/O.
  - The test's track durations are floating point.

## Findings

| source | as written | input that shows it | evidently intended | confidence | as-written member | corrected member |
|---|---|---|---|---|---|---|
| src/main/java/com/iheartradio/m3u8/data/Playlist.java:94-96 | `buildUpon()` passes master, media, extended and version to the private constructor, but not the iframes-only flag, which falls back to false | a media playlist with `isIframesOnly() == true`: `buildUpon().build()` returns it with `isIframesOnly() == false` | the builder carries "all the data from the object itself" (class comment, lines 29-31), so `buildUpon().build()` reproduces the playlist | medium, not executed | PlaylistProperties.BuildUponDropsIframesOnly | PlaylistProperties.SeedAll |

The builder class keeps the as-written `buildUpon()` (`Playlist.BuildUpon` and `Seed`), because that is the library's behaviour. `SeedAll` is the corrected seeding, and its contract proves the round trip.
