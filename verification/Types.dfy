/** Shared configuration values. */
module Types {
  datatype AccessMode = ReadWrite | ReadOnly
}
