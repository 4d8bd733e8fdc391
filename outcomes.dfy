/** Option, the bulb's error kinds, and a Result that carries one of them. */
module Outcomes {

  datatype Option<+T> = None | Some(value: T)

  /** The three kinds of failure the bulb can meet. */
  datatype Error =
    | NoPlatform(name: string)      // the Error thrown by get_platform
    | StoreError(reason: string)    // a rejected ground.db query
    | ProviderError(reason: string) // a truthy error handed to an sns-mobile callback

  datatype Result<+T> = Ok(value: T) | Err(error: Error)

  /** JavaScript truthiness of an optional string: present and not empty. */
  predicate Truthy(s: Option<string>) {
    s.Some? && s.value != ""
  }
}
