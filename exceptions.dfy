/**
 * The failures the event registry reports. Each `EventException` thrown by
 * lib/events.js gets its own kind (its message names the cause); `TypeError`
 * is the host error raised when a walk reaches a node that holds no
 * registration list.
 */
module Exceptions {

  datatype EventError =
    | EmptyEvent           // a falsy event (lib/events.js:102, 289)
    | EventNotString       // an event that is not a string (104, 291)
    | ListenerNotFunction  // a listener that is not a function (106)
    | InvalidTtl           // a ttl that is not a number, or NaN (108)
    | InvalidPath          // a path failing EVT_PATH_PATTERN (116, 299)
    | InvalidRange         // a whole scope failing EVT_RANGE_PATTERN (118, 301)
    | InvalidRangeItem     // one comma item failing RANGE_ITEM_PATTERN (201)
    | TypeError            // reading `.length` of a missing `__registered` (324)
}
