/** How a Go call ends for the process. */
module Process {
  /**
   * ReturnedNil: the function returned nil. Halted: log.Fatalf ended the
   * process. Crashed: a runtime panic (a nil pointer
   * dereference or an index out of range).
   */
  datatype Outcome = ReturnedNil | Halted | Crashed
}
