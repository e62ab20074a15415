/** A value that may be missing: std::optional, an absent file, a parse that failed. */
module Options {
  datatype Option<+T> = None | Some(value: T) {
    function GetOr(default: T): T {
      if Some? then value else default
    }
  }
}
