/**
 * The "UI Blur" quick-settings tile: a two-state toggle over the global integer
 * setting `disable_window_blurs`, where 0 (or no value) means blurs are on.
 */
module UiBlurTile {
  import opened Wrappers

  const DISABLE_WINDOW_BLURS := "disable_window_blurs"
  /** `Tile.STATE_INACTIVE` and `Tile.STATE_ACTIVE`. */
  const STATE_INACTIVE := 1
  const STATE_ACTIVE := 2

  /** `isBlurEnabled`: the setting read with default 0 is 0. */
  predicate IsBlurEnabled(disableWindowBlurs: Option<int>) {
    disableWindowBlurs.GetOr(0) == 0
  }

  /** `getTileState`. */
  function TileState(disableWindowBlurs: Option<int>): (state: int)
    ensures state == STATE_ACTIVE || state == STATE_INACTIVE
    ensures state == STATE_ACTIVE <==> disableWindowBlurs == None || disableWindowBlurs == Some(0)
  {
    if IsBlurEnabled(disableWindowBlurs) then STATE_ACTIVE else STATE_INACTIVE
  }

  /** `getTileSubtitle`. */
  function TileSubtitle(disableWindowBlurs: Option<int>): (subtitle: string)
    ensures subtitle == "On" || subtitle == "Off"
    ensures subtitle == "On" <==> TileState(disableWindowBlurs) == STATE_ACTIVE
  {
    if IsBlurEnabled(disableWindowBlurs) then "On" else "Off"
  }

  /** `getTileIcon`: the drawable shown on the tile. */
  function TileIcon(disableWindowBlurs: Option<int>): (icon: string)
    ensures icon == "rounded_blur_on_24" <==> TileState(disableWindowBlurs) == STATE_ACTIVE
  {
    if IsBlurEnabled(disableWindowBlurs) then "rounded_blur_on_24" else "rounded_blur_off_24"
  }

  /** The value `onTileClick` writes: 1 (disable) while blur is on, 0 (enable) otherwise. */
  function ClickValue(disableWindowBlurs: Option<int>): (written: int)
    ensures written == 0 || written == 1
    ensures IsBlurEnabled(Some(written)) == !IsBlurEnabled(disableWindowBlurs)
  {
    if IsBlurEnabled(disableWindowBlurs) then 1 else 0
  }

  /**
   * Two clicks restore whether blur is on. They restore the value read (absent counts
   * as 0) only when it was 0 or 1: any non-zero value comes back as 1.
   */
  lemma TwoClicks(v: Option<int>)
    ensures IsBlurEnabled(Some(ClickValue(Some(ClickValue(v))))) == IsBlurEnabled(v)
    ensures v.Some? && v.value != 0 ==> ClickValue(Some(ClickValue(v))) == 1
    ensures ClickValue(Some(ClickValue(v))) == v.GetOr(0) <==> v.GetOr(0) == 0 || v.GetOr(0) == 1
  {
  }

  /** The tile service and the one global setting it reads and writes. */
  class UiBlurTileService {
    var disableWindowBlurs: Option<int>

    constructor (stored: Option<int>)
      ensures disableWindowBlurs == stored
    {
      disableWindowBlurs := stored;
    }

    /** `onTileClick`: writes the opposite of the current state. */
    method OnTileClick()
      modifies this`disableWindowBlurs
      ensures disableWindowBlurs == Some(ClickValue(old(disableWindowBlurs)))
      ensures IsBlurEnabled(disableWindowBlurs) == !IsBlurEnabled(old(disableWindowBlurs))
    {
      var newState := if IsBlurEnabled(disableWindowBlurs) then 1 else 0;
      disableWindowBlurs := Some(newState);
    }
  }

  /** Clicking the tile twice leaves blur as it was and the tile showing what it showed. */
  method ClickTwice(stored: Option<int>) returns (before: string, after: string)
    ensures before == after
    ensures before == (if stored.GetOr(0) == 0 then "On" else "Off")
  {
    var tile := new UiBlurTileService(stored);
    before := TileSubtitle(tile.disableWindowBlurs);
    tile.OnTileClick();
    tile.OnTileClick();
    after := TileSubtitle(tile.disableWindowBlurs);
  }
}
