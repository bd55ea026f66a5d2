/** The single record the system manages (internal/entity/task.go). */
module Entity {

  /**
   * A point in time. Only the distinction between the zero instant (an
   * unset `time.Time`) and every other instant matters to the core, so an
   * instant is a count of ticks from Go's zero time.
   */
  datatype Date = Date(ticks: int) {
    predicate IsZero() { ticks == 0 }
  }

  datatype Task = Task(id: int, title: string, description: string, date: Date, completed: bool)
}
