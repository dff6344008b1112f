/** Block kinds and the per-cell block instances with their health. */
module Blocks {

  /**
   * An authored block kind. `id` stands for the identity of the asset (two kinds with equal
   * fields are still different assets); the material is opaque and left out.
   */
  datatype BlockConfig = BlockConfig(id: nat, strength: int, isTransparent: bool)

  /** Health after a hit of `damage`: the difference, floored at zero. */
  function HitHealth(health: int, damage: int): (r: int)
    ensures r >= 0
    ensures r == 0 <==> health <= damage
    ensures r > 0 ==> r == health - damage
    ensures damage >= 0 ==> r <= health || r == 0
  {
    if health - damage > 0 then health - damage else 0
  }

  /** One placed block: its kind, its remaining health and the submesh it is drawn in. */
  class Block {
    const Config: BlockConfig
    var CurrentHealth: int
    const LayerIndex: int
    const IsTransparent: bool

    /** A block is destroyed once its health has dropped to zero or below. */
    predicate IsDestroyed()
      reads this
      ensures IsDestroyed() <==> HitHealth(CurrentHealth, 0) == 0
    {
      CurrentHealth <= 0
    }

    /** A new block starts at full strength and keeps the index, kind and flag it was given. */
    constructor (layerIndex: int, config: BlockConfig, isTransparent: bool := false)
      ensures LayerIndex == layerIndex && Config == config && IsTransparent == isTransparent
      ensures CurrentHealth == config.strength
    {
      LayerIndex := layerIndex;
      Config := config;
      CurrentHealth := config.strength;
      IsTransparent := isTransparent;
    }

    /** Applies `damage`; health never goes negative, and a destroyed block stays destroyed. */
    method Hit(damage: int)
      modifies this
      ensures CurrentHealth == HitHealth(old(CurrentHealth), damage)
      ensures CurrentHealth >= 0
      ensures damage >= 0 && old(IsDestroyed()) ==> IsDestroyed()
      ensures damage >= 0 && old(CurrentHealth) >= 0 ==> CurrentHealth <= old(CurrentHealth)
    {
      CurrentHealth := HitHealth(CurrentHealth, damage);
    }
  }

  /**
   * The damage progress drawn by the mesh is health / strength; with a positive strength and a
   * non-negative damage a hit never raises it.
   */
  lemma ProgressNeverRises(health: int, strength: int, damage: int)
    requires strength > 0 && damage >= 0 && health >= 0
    ensures (HitHealth(health, damage) as real) / (strength as real) <= (health as real) / (strength as real)
  {
    var h' := HitHealth(health, damage);
    assert h' <= health;
    var s := strength as real;
    assert (h' as real) / s == (h' as real) * (1.0 / s);
    assert (health as real) / s == (health as real) * (1.0 / s);
    assert 1.0 / s > 0.0;
  }
}
