/** How an external call or a database statement can end. */
module Replies {
  /** It took effect and said so; it did not take effect; or it took effect and the answer
      was lost, which its caller cannot tell from a refusal. */
  datatype Reply = Applied | Refused | Lost
}
