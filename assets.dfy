/**
 * Garden image paths (`src/garden/assets.ts`): a seed's growth stage picks
 * one of its numbered frames, clamped to the frames the seed has.
 */
module Assets {
  import opened Wrappers
  import opened Decimal
  import opened Records

  const DEFAULT_MAX_FRAME := 5
  const ASSET_ROOT := "/garden-assets/"
  const EXTENSION := ".png"

  /** `SEED_MAX_FRAME`: seeds with fewer frames than the default. */
  const SEED_MAX_FRAME: Record<int> := [Entry("tomato", 4)]

  /** `SEED_MAX_FRAME[seedId] ?? 5`. */
  function MaxFrame(seedId: string): (n: int)
    ensures seedId == "tomato" ==> n == 4
    ensures seedId != "tomato" ==> n == DEFAULT_MAX_FRAME
  {
    assert SEED_MAX_FRAME[0].key == "tomato" && SEED_MAX_FRAME[1..] == [];
    assert Get(SEED_MAX_FRAME[1..], seedId) == None;
    Get(SEED_MAX_FRAME, seedId).GetOr(DEFAULT_MAX_FRAME)
  }

  /** The frame shown at growth stage `stage`. */
  function Frame(seedId: string, stage: int): int {
    Min(MaxFrame(seedId), Max(1, stage + 1))
  }

  /**
   * The frame is `stage + 1` clamped to `1 .. maxFrame`: stage 0 or below
   * shows the first frame, and any stage from `maxFrame - 1` on the last.
   */
  lemma FrameClamp(seedId: string, stage: int)
    ensures 1 <= Frame(seedId, stage) <= MaxFrame(seedId)
    ensures 1 <= stage + 1 <= MaxFrame(seedId) ==> Frame(seedId, stage) == stage + 1
    ensures stage <= 0 ==> Frame(seedId, stage) == 1
    ensures stage >= MaxFrame(seedId) - 1 ==> Frame(seedId, stage) == MaxFrame(seedId)
  {
  }

  /** `/garden-assets/{seedId}/{seedId}_{frame}.png`. */
  function FramePath(seedId: string, frame: int): string {
    ASSET_ROOT + seedId + "/" + seedId + "_" + IntToString(frame) + EXTENSION
  }

  /** `getSeedGrowthImagePath`. */
  function SeedGrowthImagePath(seedId: string, stage: int): string {
    FramePath(seedId, Frame(seedId, stage))
  }

  /** `getSeedIconPath`. */
  function SeedIconPath(seedId: string): string {
    ASSET_ROOT + seedId + "/" + seedId + "_1" + EXTENSION
  }

  /** Stage 0, or any stage below it, shows the icon. */
  lemma FirstStageIsIcon(seedId: string, stage: int)
    requires stage <= 0
    ensures SeedGrowthImagePath(seedId, stage) == SeedIconPath(seedId)
  {
    assert IntToString(1) == "1";
    assert ASSET_ROOT + seedId + "/" + seedId + "_" + "1" + EXTENSION
        == ASSET_ROOT + seedId + "/" + seedId + "_1" + EXTENSION;
  }

  /** The text in front of the frame number. */
  function PathPrefix(seedId: string): string {
    ASSET_ROOT + seedId + "/" + seedId + "_"
  }

  /**
   * A growth path is the seed's prefix, the frame number's digits and
   * `.png`; the digits read back as the frame, so two stages share a path
   * exactly when they share a frame.
   */
  lemma {:induction false} FramePathDigits(seedId: string, stage: int)
    ensures var path := SeedGrowthImagePath(seedId, stage);
      var digits := path[|PathPrefix(seedId)|..|path| - |EXTENSION|];
      && |path| >= |PathPrefix(seedId)| + 1 + |EXTENSION|
      && path[..|PathPrefix(seedId)|] == PathPrefix(seedId)
      && path[|path| - |EXTENSION|..] == EXTENSION
      && AllDigits(digits)
      && DigitsValue(digits) == Frame(seedId, stage)
  {
    var f := Frame(seedId, stage);
    FrameClamp(seedId, stage);
    var digits := NatToString(f);
    var path := SeedGrowthImagePath(seedId, stage);
    assert path == PathPrefix(seedId) + digits + EXTENSION;
    assert path[|PathPrefix(seedId)|..|path| - |EXTENSION|] == digits;
    NatToStringRoundTrip(f);
  }

  /** Two stages of a seed give the same path exactly when they give the same frame. */
  lemma SamePathIffSameFrame(seedId: string, s: int, t: int)
    ensures SeedGrowthImagePath(seedId, s) == SeedGrowthImagePath(seedId, t) <==> Frame(seedId, s) == Frame(seedId, t)
  {
    FramePathDigits(seedId, s);
    FramePathDigits(seedId, t);
  }
}
