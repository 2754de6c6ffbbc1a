/** The nodes of the skip-list queue. */
module SkipListNodes {
  type Id = nat

  const INT_MIN := -0x8000_0000
  const INT_MAX := 0x7FFF_FFFF
  const HEAD: Id := 0
  const TAIL: Id := 1

  // A node's immutable part; its level-i link is next[(node, i)]. The tail's null links are links to itself, which
  // no traversal follows.
  datatype Info = Info(prio: int, top: nat)
  datatype Link = Link(to: Id, marked: bool)

  type Nodes = map<Id, Info>
  type Links = map<(Id, nat), Link>

  // What the random level can be: 1 to the maximal height, which itself is chosen at run time.
  predicate IsLevel(height: nat, top: nat) { top <= height && (1 <= top || height == 0) }

  // The empty list: the head is linked to the tail at every level.
  function EndNodes(height: nat): Nodes { map[HEAD := Info(INT_MIN, height), TAIL := Info(INT_MAX, height)] }

  function EndLinks(height: nat): Links {
    (map i: nat | i <= height :: (HEAD, i) := Link(TAIL, false)) +
    (map i: nat | i <= height :: (TAIL, i) := Link(TAIL, false))
  }
}
