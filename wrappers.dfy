/** Optional values: the session's mood summary is absent below its threshold,
    and the dashboard shows no counts for an empty mood log. */
module Wrappers {

  datatype Option<+T> = None | Some(value: T)
}
