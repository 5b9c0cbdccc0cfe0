/** Swift's optional type `T?`, used for the unset fields of a car, a missing age
    and "no account in the chain can pay". */
module Optional {

  datatype Option<+T> = None | Some(value: T)

}
