/** Optional values: a JavaScript `null` reference (a missing session, an unset
    `channelRef.current`) or an absent nested object. */
module Options {
  datatype Option<+T> = None | Some(value: T)
}
