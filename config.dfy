/** The compiled-in configuration of the hero animation (index.js, "Configuration"). */
module Config {
  /** Number of frames in the image sequence. */
  const TotalFrames: nat := 663
  /** Target playback rate, in frames per second. */
  const FrameRate: nat := 30
  /** Frame file names are Prefix + three-digit index + Extension. */
  const Prefix: string := "Mob"
  const Extension: string := ".jpg"
  /** Width the frame index is zero-padded to. */
  const IndexWidth: nat := 3
  /** Aspect ratio assumed until frame 0 has loaded. */
  const DefaultAspect: real := 16.0 / 9.0
}
