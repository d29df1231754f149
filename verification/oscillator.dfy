/**
 * The one-dimensional particle of the damped-oscillator system: a position
 * and a velocity that integrators overwrite through setters, and a mass fixed
 * at construction.
 */
module Oscillator {

  class Particle {
    var position: real
    var velocity: real
    /** Final in the source: a `const` here, so no method can change it. */
    const mass: real

    constructor (initialPosition: real, initialVelocity: real, mass: real)
      ensures position == initialPosition
      ensures velocity == initialVelocity
      ensures this.mass == mass
    {
      position := initialPosition;
      velocity := initialVelocity;
      this.mass := mass;
    }

    /** Replaces the position; the velocity (and the mass) are untouched. */
    method SetPosition(position: real)
      modifies this
      ensures this.position == position
      ensures velocity == old(velocity)
    {
      this.position := position;
    }

    /** Replaces the velocity; the position (and the mass) are untouched. */
    method SetVelocity(velocity: real)
      modifies this
      ensures this.velocity == velocity
      ensures position == old(position)
    {
      this.velocity := velocity;
    }
  }
}
