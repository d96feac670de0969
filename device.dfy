/** A Device: a named bounded counter standing for a BoundedSemaphore that
    serialises access to a scarce resource. */
module Devices {
  import opened Values

  class Device {
    const name: string
    const number: int   // the ceiling, fixed at construction
    var count: int      // permits currently available

    ghost predicate Valid()
      reads this
    {
      1 <= number && 0 <= count <= number
    }

    constructor (name: string, number: int)
      requires number >= 1
      ensures Valid()
      ensures this.name == name && this.number == number && count == number
    {
      this.name := name;
      this.number := number;
      count := number;
    }

    /** Acquire one permit. The semaphore blocks while none is available;
        in this single-threaded model a caller must hold one in hand. */
    method Get()
      requires Valid() && count > 0
      modifies this
      ensures Valid()
      ensures count == old(count) - 1
    {
      count := count - 1;
    }

    /** Give a permit back; releasing above the ceiling raises ValueError
        and changes nothing. */
    method Release() returns (r: Outcome<Error>)
      requires Valid()
      modifies this
      ensures Valid()
      ensures old(count) < number ==> r == Pass && count == old(count) + 1
      ensures old(count) == number ==> r == Fail(ValueError) && count == old(count)
    {
      if count < number {
        count := count + 1;
        r := Pass;
      } else {
        r := Fail(ValueError);
      }
    }
  }

  /** `Device(name, number)`: a device whose count starts at `number`;
      a number below one fails the constructor's assertion. */
  method NewDevice(name: string, number: int) returns (r: Result<Device, Error>)
    ensures r.Success? <==> number >= 1
    ensures r.Failure? ==> r.error == InvalidDeviceNumber
    ensures r.Success? ==> fresh(r.value) && r.value.Valid()
    ensures r.Success? ==> r.value.name == name && r.value.number == number && r.value.count == number
  {
    if number < 1 {
      return Failure(InvalidDeviceNumber);
    }
    var d := new Device(name, number);
    return Success(d);
  }
}
