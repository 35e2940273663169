/**
 * The HLS `Playlist` value of open-m3u8 and its fluent `Builder`.
 *
 * A `Playlist` is an immutable union of a master playlist and a media
 * playlist, plus an "extended" flag, an "iframes only" flag and a
 * compatibility version.  The `Builder` holds the same five fields as
 * mutable state; each `with*` setter checks its own guard before touching
 * anything, and `Build` only checks that one of the two slots is filled.
 *
 * The builder's behaviour is specified by pure step functions over a
 * `BuilderState` value; the `Builder` class is proved to follow them.
 */
module M3u8Playlist {

  /** Java `null` on a reference field. */
  datatype Option<+T> = None | Some(value: T)

  /** Java's 32-bit `int`, the type of the compatibility version. */
  newtype Int32 = x: int | -0x8000_0000 <= x < 0x8000_0000

  /** `Playlist.MIN_COMPATIBILITY_VERSION`. */
  const MinCompatibilityVersion: Int32 := 1

  /** A master playlist; its contents are not part of this model, the handle tells values apart. */
  datatype MasterPlaylist = MasterPlaylist(handle: nat)

  /** A media playlist; its contents are not part of this model, the handle tells values apart. */
  datatype MediaPlaylist = MediaPlaylist(handle: nat)

  /** The two exception classes the builder throws. */
  datatype Exception = IllegalState | IllegalArgument

  /** How a setter call ends: it returns (the builder itself), or it throws. */
  datatype Outcome = Returned | Threw(kind: Exception)

  /** The result of `build()`: a playlist, or the exception it throws. */
  datatype Result<+T> = Success(value: T) | Failure(error: Exception)

  /**
   * An immutable playlist.  The datatype's destructors are the getters
   * `getMasterPlaylist`, `getMediaPlaylist`, `isExtended`, `isIframesOnly`
   * and `getCompatibilityVersion`.
   */
  datatype Playlist = Playlist(
    master: Option<MasterPlaylist>,
    media: Option<MediaPlaylist>,
    extended: bool,
    iframesOnly: bool,
    compatibilityVersion: Int32)
  {
    /** `hasMasterPlaylist()`: whether `getMasterPlaylist()` is non-null. */
    predicate HasMasterPlaylist(): (r: bool)
      ensures r <==> master != None
    {
      master.Some?
    }

    /** `hasMediaPlaylist()`: whether `getMediaPlaylist()` is non-null. */
    predicate HasMediaPlaylist(): (r: bool)
      ensures r <==> media != None
    {
      media.Some?
    }

    /**
     * What every playlist a builder hands out satisfies: exactly one of the
     * two kinds, a master playlist is always extended, and the version is
     * at least the minimum.
     */
    predicate Valid() {
      && HasMasterPlaylist() != HasMediaPlaylist()
      && (HasMasterPlaylist() ==> extended)
      && compatibilityVersion >= MinCompatibilityVersion
    }

    /** `buildUpon()`: a new builder seeded from this playlist (the iframes-only flag is not passed). */
    method BuildUpon() returns (b: Builder)
      ensures fresh(b)
      ensures b.State() == Seed(this)
      ensures Valid() ==> b.Valid()
    {
      b := new Builder.Seeded(master, media, extended, compatibilityVersion);
    }
  }

  /** The five fields of a builder, as a value. */
  datatype BuilderState = BuilderState(
    master: Option<MasterPlaylist>,
    media: Option<MediaPlaylist>,
    extended: bool,
    iframesOnly: bool,
    compatibilityVersion: Int32)

  /**
   * The builder invariant the setters maintain: never both kinds, a master
   * forces the extended flag, and the version is at least the minimum.
   */
  predicate Consistent(s: BuilderState) {
    && !(s.master.Some? && s.media.Some?)
    && (s.master.Some? ==> s.extended)
    && s.compatibilityVersion >= MinCompatibilityVersion
  }

  /** A setter's outcome together with the builder state it leaves behind. */
  datatype Step = Step(outcome: Outcome, after: BuilderState)

  /** The state of `new Builder()`: both slots empty, both flags off, the minimum version. */
  function Fresh(): (s: BuilderState)
    ensures s.master.None? && s.media.None?
    ensures !s.extended && !s.iframesOnly
    ensures s.compatibilityVersion == MinCompatibilityVersion
    ensures Consistent(s)
  {
    BuilderState(None, None, false, false, MinCompatibilityVersion)
  }

  /** The state built by `buildUpon()`, as written: the iframes-only flag keeps its default, false. */
  function Seed(p: Playlist): (s: BuilderState)
    ensures s.master == p.master && s.media == p.media
    ensures s.extended == p.extended && s.compatibilityVersion == p.compatibilityVersion
    ensures !s.iframesOnly
    ensures p.Valid() ==> Consistent(s)
  {
    BuilderState(p.master, p.media, p.extended, false, p.compatibilityVersion)
  }

  /** `withExtended(isExtended)`: clearing the flag is refused while a master playlist is set. */
  function ExtendedStep(s: BuilderState, isExtended: bool): (r: Step)
    ensures r.outcome.Threw? <==> s.master.Some? && !isExtended
    ensures r.outcome.Threw? ==> r.outcome.kind == IllegalState && r.after == s
    ensures r.outcome.Returned? ==> r.after == s.(extended := isExtended)
    ensures Consistent(s) ==> Consistent(r.after)
  {
    if s.master.Some? && !isExtended then Step(Threw(IllegalState), s)
    else Step(Returned, s.(extended := isExtended))
  }

  /**
   * `withMasterPlaylist(m)`: refused while a media playlist is set;
   * otherwise stores `m` (possibly clearing the slot) and then sets the
   * extended flag through `withExtended(true)`.
   */
  function MasterStep(s: BuilderState, m: Option<MasterPlaylist>): (r: Step)
    ensures r.outcome.Threw? <==> s.media.Some?
    ensures r.outcome.Threw? ==> r.outcome.kind == IllegalState && r.after == s
    ensures r.outcome.Returned? ==> r.after == s.(master := m, extended := true)
    ensures Consistent(s) ==> Consistent(r.after)
  {
    if s.media.Some? then Step(Threw(IllegalState), s)
    else ExtendedStep(s.(master := m), true)
  }

  /** `withMediaPlaylist(d)`: refused while a master playlist is set; otherwise stores `d`. */
  function MediaStep(s: BuilderState, d: Option<MediaPlaylist>): (r: Step)
    ensures r.outcome.Threw? <==> s.master.Some?
    ensures r.outcome.Threw? ==> r.outcome.kind == IllegalState && r.after == s
    ensures r.outcome.Returned? ==> r.after == s.(media := d)
    ensures Consistent(s) ==> Consistent(r.after)
  {
    if s.master.Some? then Step(Threw(IllegalState), s)
    else Step(Returned, s.(media := d))
  }

  /** `withIframesOnly(b)`: always accepted. */
  function IframesOnlyStep(s: BuilderState, isIframesOnly: bool): (r: Step)
    ensures r.outcome == Returned
    ensures r.after == s.(iframesOnly := isIframesOnly)
    ensures Consistent(s) ==> Consistent(r.after)
  {
    Step(Returned, s.(iframesOnly := isIframesOnly))
  }

  /** `withCompatibilityVersion(v)`: a version below the minimum is an illegal argument. */
  function VersionStep(s: BuilderState, version: Int32): (r: Step)
    ensures r.outcome.Threw? <==> version < MinCompatibilityVersion
    ensures r.outcome.Threw? ==> r.outcome.kind == IllegalArgument && r.after == s
    ensures r.outcome.Returned? ==> r.after == s.(compatibilityVersion := version)
    ensures Consistent(s) ==> Consistent(r.after)
  {
    if version < MinCompatibilityVersion then Step(Threw(IllegalArgument), s)
    else Step(Returned, s.(compatibilityVersion := version))
  }

  /**
   * `build()`: fails exactly when neither slot is set; otherwise copies the
   * five fields unchanged.  It checks nothing else, so the playlist is valid
   * only because the setters kept the builder consistent.
   */
  function BuildResult(s: BuilderState): (r: Result<Playlist>)
    ensures r.Failure? <==> s.master.None? && s.media.None?
    ensures r.Failure? ==> r.error == IllegalState
    ensures r.Success? ==> r.value.master == s.master && r.value.media == s.media
    ensures r.Success? ==> r.value.extended == s.extended && r.value.iframesOnly == s.iframesOnly
    ensures r.Success? ==> r.value.compatibilityVersion == s.compatibilityVersion
    ensures Consistent(s) && r.Success? ==> r.value.Valid()
  {
    if s.master.Some? || s.media.Some? then
      Success(Playlist(s.master, s.media, s.extended, s.iframesOnly, s.compatibilityVersion))
    else
      Failure(IllegalState)
  }

  /** `Playlist.Builder`, whose setters update its fields in place. */
  class Builder {
    var master: Option<MasterPlaylist>
    var media: Option<MediaPlaylist>
    var extended: bool
    var iframesOnly: bool
    var compatibilityVersion: Int32

    /** The builder's fields as a value. */
    function State(): BuilderState
      reads this
    {
      BuilderState(master, media, extended, iframesOnly, compatibilityVersion)
    }

    predicate Valid()
      reads this
    {
      Consistent(State())
    }

    /** `new Builder()`. */
    constructor ()
      ensures State() == Fresh()
      ensures Valid()
    {
      master := None;
      media := None;
      extended := false;
      iframesOnly := false;
      compatibilityVersion := MinCompatibilityVersion;
    }

    /** The private constructor used by `buildUpon()`; it takes no iframes-only flag and checks nothing. */
    constructor Seeded(master: Option<MasterPlaylist>, media: Option<MediaPlaylist>, extended: bool, compatibilityVersion: Int32)
      ensures State() == BuilderState(master, media, extended, false, compatibilityVersion)
    {
      this.master := master;
      this.media := media;
      this.extended := extended;
      this.iframesOnly := false;
      this.compatibilityVersion := compatibilityVersion;
    }

    method WithMasterPlaylist(m: Option<MasterPlaylist>) returns (o: Outcome)
      modifies this
      ensures Step(o, State()) == MasterStep(old(State()), m)
      ensures old(Valid()) ==> Valid()
    {
      if media.Some? {
        return Threw(IllegalState);
      }
      master := m;
      o := WithExtended(true);
    }

    method WithMediaPlaylist(d: Option<MediaPlaylist>) returns (o: Outcome)
      modifies this
      ensures Step(o, State()) == MediaStep(old(State()), d)
      ensures old(Valid()) ==> Valid()
    {
      if master.Some? {
        return Threw(IllegalState);
      }
      media := d;
      o := Returned;
    }

    method WithIframesOnly(isIframesOnly: bool) returns (o: Outcome)
      modifies this
      ensures Step(o, State()) == IframesOnlyStep(old(State()), isIframesOnly)
      ensures old(Valid()) ==> Valid()
    {
      iframesOnly := isIframesOnly;
      o := Returned;
    }

    method WithExtended(isExtended: bool) returns (o: Outcome)
      modifies this
      ensures Step(o, State()) == ExtendedStep(old(State()), isExtended)
      ensures old(Valid()) ==> Valid()
    {
      if master.Some? && !isExtended {
        return Threw(IllegalState);
      }
      extended := isExtended;
      o := Returned;
    }

    method WithCompatibilityVersion(version: Int32) returns (o: Outcome)
      modifies this
      ensures Step(o, State()) == VersionStep(old(State()), version)
      ensures old(Valid()) ==> Valid()
    {
      if version < MinCompatibilityVersion {
        return Threw(IllegalArgument);
      }
      compatibilityVersion := version;
      o := Returned;
    }

    method Build() returns (r: Result<Playlist>)
      // so, by BuildResult's contract, it fails exactly when both slots are empty
      ensures r == BuildResult(State())
      ensures Valid() && r.Success? ==> r.value.Valid()
    {
      if master.Some? || media.Some? {
        r := Success(Playlist(master, media, extended, iframesOnly, compatibilityVersion));
      } else {
        r := Failure(IllegalState);
      }
    }
  }
}
