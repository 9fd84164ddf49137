/** Constants of config/config.py that the modelled core reads, and the WindowState enum. */
module Config {
  const ScreenWidth: int := 1600
  const ScreenHeight: int := 900
  /** SCREEN_WIDTH / SCREEN_HEIGHT, taken exactly (16/9) rather than as a float. */
  const AspectRatio: real := 1600.0 / 900.0

  const PlayerOuterSize: int := 60
  const PlayerInnerSize: int := PlayerOuterSize - 15
  const PlayerSpeed: int := 500
  const PlayerStartX: int := 120
  const FloorY: int := 720
  const FloorOuterHeight: int := 5

  const BlockOuterSize: int := PlayerOuterSize
  const SpikeOuterWidth: int := BlockOuterSize
  const SpikeOuterHeight: int := BlockOuterSize
  const SpikeInnerWidth: int := SpikeOuterWidth - 5
  const SpikeInnerHeight: int := SpikeOuterHeight - 5

  const FontSize: int := 48
  const GridSize: int := PlayerOuterSize
  const ToolbarHeight: int := ScreenHeight - FloorY

  /** The screens the session can show (config/enums.py). */
  datatype WindowState = Menu | Game | Pause | Select | Edit | EditConfirm
}
