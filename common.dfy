/** Small value types shared by the model of the multi-dex build task. */
module Common {

  /** A Java reference that may be null: `None` stands for `null`. */
  datatype Option<+T> = None | Some(value: T)

  /** The outcome of an operation that can fail with an error value. */
  datatype Result<+R, +E> = Ok(value: R) | Err(error: E)

  /**
   * A `java.io.File` as the task handles it: it only carries the path it
   * was created from. Resolving it to an absolute path is left to the
   * environment (see `MultiDexTask.Environment`).
   */
  datatype File = File(path: string)
}
