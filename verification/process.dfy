/** The process areas and their default thresholds. */
module Process {
  import Text

  datatype EnvRange = EnvRange(
    tempMin: real, tempMax: real,
    humidityMin: real, humidityMax: real,
    pressureMin: real, pressureMax: real)

  datatype ProcessThreshold = ProcessThreshold(process: string, multiplier: real, range: EnvRange)

  const LITHOGRAPHY := "lithography"
  const ETCHING := "etching"
  const DIFFUSION := "diffusion"

  predicate Parses(s: string) {
    Text.Normalise(s) in [LITHOGRAPHY, ETCHING, DIFFUSION]
  }

  // The threshold table; an unknown process falls back to the etching profile.
  function DefaultsFor(process: string): ProcessThreshold {
    if process == LITHOGRAPHY then
      ProcessThreshold(LITHOGRAPHY, 0.8, EnvRange(20.0, 22.0, 40.0, 50.0, 15.0, 25.0))
    else if process == DIFFUSION then
      ProcessThreshold(DIFFUSION, 1.2, EnvRange(21.0, 25.0, 35.0, 55.0, 5.0, 20.0))
    else
      ProcessThreshold(ETCHING, 1.0, EnvRange(20.0, 24.0, 40.0, 60.0, 10.0, 25.0))
  }
}
