/** How deep the validator may go. */
module Depths {
  /** How deep the closures of a schema may call each other. */
  function Limit(maxDepth: nat): nat { if maxDepth * 4 > 64 then maxDepth * 4 else 64 }

  /** What is left below a limit. */
  function Room(limit: nat, depth: nat): nat { if depth < limit then limit - depth else 0 }
}
