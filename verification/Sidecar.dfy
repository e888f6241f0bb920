/** What the two processes have in common: the vocabulary of sidecar.proto. */
module Sidecar {
  // YieldUrgency.
  datatype Urgency = Normal | Immediate
}
