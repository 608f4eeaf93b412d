/** An optional value: a notice that may not be shown, a prediction that may
    not be held yet, a field the scan may not find */
module Options {

  datatype Option<+T> = None | Some(value: T)
}
