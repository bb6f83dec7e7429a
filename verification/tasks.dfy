/**
 The records the to-do app keeps in its session: one task dictionary per
 task, and the two lists (active and completed) that make up the store.

 Calendar dates are day numbers and timestamps are minute numbers; the
 clock is always passed in by the caller.
 */
module Tasks {

  /** A calendar date, as a day number. */
  type Day = int

  /** A wall-clock timestamp (minute resolution, as the app formats it). */
  type Stamp = int

  datatype Option<+T> = None | Some(value: T) {
    /** The dictionary idiom `d.get(key, default)`. */
    function GetOr(default: T): T {
      match this
      case Some(v) => v
      case None => default
    }
  }

  datatype Result<+T, +E> = Success(value: T) | Failure(error: E)

  /**
   One task dictionary. `category`, `priority` and `due` are optional because
   the analytics read them with a default; every task the app creates has
   them. `completedAt` is present only on the copy kept in the completed list.
   */
  datatype Task = Task(
    id: int,
    title: string,
    description: string,
    category: Option<string>,
    priority: Option<string>,
    due: Option<Day>,
    created: Stamp,
    score: real,
    guidance: string,
    completedAt: Option<Stamp>)

  /** The session's two task lists. */
  datatype Store = Store(active: seq<Task>, completed: seq<Task>)

  /** What the "add task" form hands over when its button is pressed. */
  datatype TaskForm = TaskForm(
    title: string,
    description: string,
    category: string,
    priority: string,
    due: Day)

  const EmptyStore := Store([], [])
}
