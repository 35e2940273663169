/**
 * Properties of the playlist builder over whole sequences of setter calls:
 * every builder a caller can reach is consistent, so every playlist it
 * builds is valid; and what `buildUpon()` followed by `build()` gives back.
 */
module PlaylistProperties {
  import opened M3u8Playlist

  /** One call of a `with*` setter, with its argument. */
  datatype Call =
    | Master(m: Option<MasterPlaylist>)
    | Media(d: Option<MediaPlaylist>)
    | IframesOnly(isIframesOnly: bool)
    | Extended(isExtended: bool)
    | Version(version: Int32)

  /** The effect of one setter call on the builder state. */
  function Apply(s: BuilderState, c: Call): (r: Step)
    ensures r.outcome.Threw? ==> r.after == s
    ensures Consistent(s) ==> Consistent(r.after)
  {
    match c
    case Master(m) => MasterStep(s, m)
    case Media(d) => MediaStep(s, d)
    case IframesOnly(b) => IframesOnlyStep(s, b)
    case Extended(b) => ExtendedStep(s, b)
    case Version(v) => VersionStep(s, v)
  }

  /**
   * The builder state after the calls in order, where the caller catches
   * every exception and goes on with the same builder (a throwing setter
   * leaves it as it was).
   */
  function Run(s: BuilderState, calls: seq<Call>): BuilderState
    decreases |calls|
  {
    if calls == [] then s else Run(Apply(s, calls[0]).after, calls[1..])
  }

  /** No sequence of setter calls can break the builder invariant. */
  lemma {:induction false} RunPreservesConsistency(s: BuilderState, calls: seq<Call>)
    requires Consistent(s)
    ensures Consistent(Run(s, calls))
    decreases |calls|
  {
    if calls != [] {
      RunPreservesConsistency(Apply(s, calls[0]).after, calls[1..]);
    }
  }

  /**
   * Whatever setters were called on `new Builder()`, `build()` either throws
   * `IllegalStateException` (neither slot set) or returns a valid playlist.
   */
  lemma EveryBuiltPlaylistIsValid(calls: seq<Call>)
    ensures var r := BuildResult(Run(Fresh(), calls));
      && (r.Failure? ==> r.error == IllegalState)
      && (r.Success? ==> r.value.Valid())
  {
    RunPreservesConsistency(Fresh(), calls);
  }

  /**
   * A playlist rebuilt through `buildUpon()` and any further setter calls is
   * valid again, when the original came from a builder.
   */
  lemma RebuiltPlaylistIsValid(calls: seq<Call>, more: seq<Call>)
    requires BuildResult(Run(Fresh(), calls)).Success?
    ensures var r := BuildResult(Run(Seed(BuildResult(Run(Fresh(), calls)).value), more));
      r.Success? ==> r.value.Valid()
  {
    EveryBuiltPlaylistIsValid(calls);
    var p := BuildResult(Run(Fresh(), calls)).value;
    RunPreservesConsistency(Seed(p), more);
  }

  /**
   * `buildUpon().build()` on a valid playlist succeeds and gives back the
   * same master, media, extended flag and version, with iframes-only reset.
   */
  lemma BuildUponThenBuild(p: Playlist)
    requires p.Valid()
    ensures BuildResult(Seed(p)) == Success(p.(iframesOnly := false))
  {
  }

  /**
   * Replacing the media playlist through `buildUpon()`: accepted exactly
   * when the original is a media playlist, and then only the media slot
   * (and the dropped iframes-only flag) differ.
   */
  lemma BuildUponWithMedia(p: Playlist, d: MediaPlaylist)
    requires p.Valid()
    ensures var step := MediaStep(Seed(p), Some(d));
      && (step.outcome.Threw? <==> p.HasMasterPlaylist())
      && (step.outcome.Returned? ==>
            BuildResult(step.after) == Success(p.(media := Some(d), iframesOnly := false)))
  {
  }

  /** As written, `buildUpon().build()` is not the identity: an iframes-only playlist loses the flag. */
  lemma BuildUponDropsIframesOnly()
    ensures exists p: Playlist :: p.Valid() && BuildResult(Seed(p)) != Success(p)
  {
    var p := Playlist(None, Some(MediaPlaylist(0)), false, true, MinCompatibilityVersion);
    assert BuildResult(Seed(p)).value.iframesOnly != p.iframesOnly;
  }

  /** `buildUpon()` as its documentation describes it: every field, the iframes-only flag included. */
  function SeedAll(p: Playlist): (s: BuilderState)
    ensures s.master == p.master && s.media == p.media
    ensures s.extended == p.extended && s.iframesOnly == p.iframesOnly
    ensures s.compatibilityVersion == p.compatibilityVersion
    ensures p.Valid() ==> Consistent(s) && BuildResult(s) == Success(p)
  {
    BuilderState(p.master, p.media, p.extended, p.iframesOnly, p.compatibilityVersion)
  }
}
