/** Value types shared by every module of the model. */
module Types {

  /** A byte (Rust `u8`). */
  type byte = x: int | 0 <= x < 0x100

  /** A byte payload (Rust `Bytes`, `Vec<u8>`, `&[u8]`). */
  type Bytes = seq<byte>

  /** Rust `u16`, the type of terminal dimensions. */
  type u16 = x: int | 0 <= x < 0x1_0000

  /** Rust `Option<T>`. */
  datatype Option<+T> = None | Some(value: T)

  /** Rust `Result<T, E>`. */
  datatype Result<+T, +E> = Ok(value: T) | Err(error: E)
}
