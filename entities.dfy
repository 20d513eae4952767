/** The entities the party command and the stats registry work on.
    Java object references are modelled as handles into arenas: a `StatsRef`
    names one PlayerStats object, a `PartyRef` one Party object, so that two
    holders of the same reference see each other's updates. */
module Entities {

  datatype Option<+T> = None | Some(value: T)

  /** Handle of a PlayerStats object. */
  type StatsRef = nat

  /** Handle of a Party object. */
  type PartyRef = nat

  /** A player entity: `entity` is its object identity, `name` the text of its
      name component. */
  datatype Player = Player(entity: nat, name: string)

  /** Java's `==` / `!=` on two entity references. */
  predicate SameEntity(a: Player, b: Player) {
    a.entity == b.entity
  }

  /** A PlayerStats object: the party the player is in (null when none) and
      the party that last invited it (null when none). */
  datatype Stats = Stats(party: Option<PartyRef>, partyInvite: Option<PartyRef>)
  {
    /** PlayerStats.InParty(). */
    predicate InParty() {
      party.Some?
    }
  }

  /** One entry of the player-to-stats map, in its iteration order. */
  datatype Entry = Entry(key: Player, stats: StatsRef)
}
