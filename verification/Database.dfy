module Database {
  // What the database made of a statement: it ran and the answer arrived, it ran and the answer was
  // lost on the way, or it did not run. Both of the last two are errors to the caller.
  datatype Reply = Stored | Lost | Down
}
