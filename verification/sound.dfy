/** The choice of sound file in `notify` of src/sound.ts. */
module Sound {
  import opened Wrappers
  import opened Models

  /** JavaScript truthiness of the optional `gilfoyleMode` setting. */
  predicate IsOn(flag: Option<bool>)
  {
    flag == Some(true)
  }

  /**
   * The asset name played for `state`: "napalm" whenever Gilfoyle mode is on, otherwise
   * "above" or "below"; no name (the local stays `undefined`) for the other two states.
   */
  function SoundAsset(gilfoyleMode: Option<bool>, state: PriceState): (f: Option<string>)
    ensures IsOn(gilfoyleMode) ==> f == Some("napalm")
    ensures !IsOn(gilfoyleMode) ==> (f == Some("above") <==> state == AboveThreshold)
    ensures !IsOn(gilfoyleMode) ==> (f == Some("below") <==> state == BelowThreshold)
    ensures f.None? <==> !IsOn(gilfoyleMode) && (state == AtThreshold || state == Unknown)
  {
    if IsOn(gilfoyleMode) then Some("napalm")
    else if state.AboveThreshold? then Some("above")
    else if state.BelowThreshold? then Some("below")
    else None
  }

  const ASSET_DIR := "../assets/"
  const ASSET_EXT := ".mp3"

  /**
   * The path handed to the player, relative to the module's directory. A missing name is
   * interpolated by the template literal as the text "undefined".
   */
  function PlayedPath(f: Option<string>): (path: string)
    ensures |path| >= 14 && path[..10] == "../assets/" && path[|path| - 4..] == ".mp3"
    ensures f.Some? ==> path[10..|path| - 4] == f.value
    ensures f.None? ==> path == "../assets/undefined.mp3"
  {
    var name := match f case Some(n) => n case None => "undefined";
    ASSET_DIR + name + ASSET_EXT
  }

  /** Different asset names are played from different files. */
  lemma PlayedPathInjective(a: string, b: string)
    requires PlayedPath(Some(a)) == PlayedPath(Some(b))
    ensures a == b
  {
  }
}
