// Which driver and vehicle may serve a window: Core's check, and the Dispatch SQL filter.
module Eligibility {
  import opened Model

  // A paper carries an order to the end of the day it names: not to.After(validUntil + 24h).
  predicate Covers(paper: Paper, to: Time) {
    paper.valid && to <= (paper.validUntil + 1) * DAY
  }

  predicate Licensed(driver: DriverRow, to: Time) {
    if driver.licenses == [] then to <= (driver.licenseExpiry + 1) * DAY
    else exists i :: 0 <= i < |driver.licenses| && Covers(driver.licenses[i], to)
  }

  predicate Registered(vehicle: VehicleRow, to: Time) {
    exists i :: 0 <= i < |vehicle.registrations| && Covers(vehicle.registrations[i], to)
  }

  predicate Within(shift: Shift, from: Time, to: Time) {
    shift.startsAt <= from && to <= shift.endsAt
  }

  predicate OnShift(driver: DriverRow, from: Time, to: Time) {
    driver.shifts == [] || exists i :: 0 <= i < |driver.shifts| && Within(driver.shifts[i], from, to)
  }

  // The first reason Core has against the pair, if any.
  function Objection(order: Order, driver: DriverRow, vehicle: VehicleRow, from: Time, to: Time): Option<Error> {
    if !driver.available then Some(DriverNotEligible)
    else if !Licensed(driver, to) then Some(DriverLicenseExpired)
    else if !vehicle.available then Some(VehicleNotOperational)
    else if !Registered(vehicle, to) then Some(VehicleDocumentInvalid)
    else if order.weight > vehicle.capacityKg || order.volume > vehicle.capacityM3 then Some(VehicleCapacityExceeded)
    else if !OnShift(driver, from, to) then Some(DriverOutsideShift)
    else None
  }

  // validateAssignmentResources: three scans, each stopping at the first row that fits.
  method ValidateAssignmentResources(order: Order, driver: DriverRow, vehicle: VehicleRow, from: Time, to: Time)
    returns (objection: Option<Error>)
    ensures objection == Objection(order, driver, vehicle, from, to)
  {
    if !driver.available { return Some(DriverNotEligible); }
    if |driver.licenses| == 0 {
      if to > driver.licenseExpiry * DAY + DAY { return Some(DriverLicenseExpired); }
    } else {
      var validLicense := false;
      for i := 0 to |driver.licenses|
        invariant !validLicense
        invariant forall j :: 0 <= j < i ==> !Covers(driver.licenses[j], to)
      {
        if driver.licenses[i].valid && to <= driver.licenses[i].validUntil * DAY + DAY {
          assert Covers(driver.licenses[i], to);
          validLicense := true;
          break;
        }
      }
      if !validLicense { return Some(DriverLicenseExpired); }
    }
    if !vehicle.available { return Some(VehicleNotOperational); }
    var validRegistration := false;
    for i := 0 to |vehicle.registrations|
      invariant !validRegistration
      invariant forall j :: 0 <= j < i ==> !Covers(vehicle.registrations[j], to)
    {
      if vehicle.registrations[i].valid && to <= vehicle.registrations[i].validUntil * DAY + DAY {
        assert Covers(vehicle.registrations[i], to);
        validRegistration := true;
        break;
      }
    }
    if !validRegistration { return Some(VehicleDocumentInvalid); }
    if order.weight > vehicle.capacityKg || order.volume > vehicle.capacityM3 {
      return Some(VehicleCapacityExceeded);
    }
    if |driver.shifts| > 0 {
      var covered := false;
      for i := 0 to |driver.shifts|
        invariant !covered
        invariant forall j :: 0 <= j < i ==> !Within(driver.shifts[j], from, to)
      {
        if driver.shifts[i].startsAt <= from && to <= driver.shifts[i].endsAt {
          assert Within(driver.shifts[i], from, to);
          covered := true;
          break;
        }
      }
      if !covered { return Some(DriverOutsideShift); }
    }
    return None;
  }
}
