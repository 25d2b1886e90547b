/** The nullable values of the components (`Hotel | null`, `string | null`,
    the `undefined` returned by `Array.prototype.find`). */
module Optional {

  datatype Option<+T> = None | Some(value: T)
}
