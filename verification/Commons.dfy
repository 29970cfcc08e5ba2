/** What several parts of the model share: optional values, and the resource bounds of state/models.go. */
module Commons {
  datatype Option<+T> = None | Some(value: T)

  const MIN_CPU := 256
  const MAX_CPU := 32000
  const MIN_MEM := 512
  const MAX_MEM := 250000
}
