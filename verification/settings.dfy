/** The configuration the scenes are built from (`configs.py`): the window size
    and the images. Asset paths are replaced by the images they load. */
module Settings {
  import opened Geometry
  import opened BirdSprite

  const ScreenW: int := 432   // `screen_width`
  const ScreenH: int := 468   // `screen_height`

  datatype Config = Config(
    birdFrames: Frames,        // `bird_aframes`, already scaled to `bird_size`
    roadTexture: Surface,
    pipeImage: Surface,
    startButton: Surface,
    restartButton: Surface,
    musicButton: Surface,
    reskinButton: Surface,
    redressButton: Surface,
    girlImage: Surface)
}
