/**
 * Step 2 of the wizard (components/booking/Step2BarberSelection.tsx): the
 * barber catalogue with its "first available" entry, the selection handler and
 * the conditions under which a card shows its availability dot, experience and rating.
 */
module BarberSelection {
  import opened Prelude
  import opened Booking

  datatype Barber = Barber(
    id: string,
    name: string,
    specialties: seq<string>,
    experience: string,
    ratingTenths: int,  // the rating 4.9 is held as 49 tenths
    totalReviews: int,
    avatar: string,
    available: bool)

  /** The id of the "first available barber" card: an ordinary id as far as the draft is concerned. */
  const AnyBarberId: string := "any"

  /** The constant catalogue `barbers`. */
  const Barbers: seq<Barber> := [
    Barber("1", "Marc Dubois", ["Fade", "Barbe", "Coupe Classique"], "15 ans", 49, 248, "MD", true),
    Barber("2", "Thomas Bernard", ["Coupe Moderne", "Styling", "Coloration"], "10 ans", 48, 187, "TB", true),
    Barber("3", "Antoine Lefèvre", ["Rasage Traditionnel", "Barbe", "Soin"], "12 ans", 49, 203, "AL", true),
    Barber("any", "Premier disponible", ["Tous services"], "", 48, 0, "?", true)
  ]

  /** The partial that `handleSelectBarber` passes to `updateBooking`. */
  function BarberPatch(barber: Barber): PartialBookingData {
    NoChange.(barberId := Present(Some(barber.id)), barberName := Present(Some(barber.name)))
  }

  /** `handleSelectBarber(barber)` (lines 66-71). */
  method HandleSelectBarber(store: BookingStore, barber: Barber)
    modifies store
    ensures store.bookingData == Merge(old(store.bookingData), BarberPatch(barber))
    ensures store.currentStep == old(store.currentStep)
  {
    store.UpdateBooking(BarberPatch(barber));
  }

  /** `bookingData.barberId === barber.id`. */
  function IsSelected(d: BookingData, barber: Barber): (selected: bool)
    ensures selected && barber.id != "" ==> CanProceed(d, 1)
  {
    d.barberId == Some(barber.id)
  }

  /** `barber.available && barber.id !== 'any'`: the green dot on the avatar. */
  function ShowsAvailabilityDot(barber: Barber): (shown: bool)
    ensures shown ==> barber.available
    ensures barber.id == AnyBarberId ==> !shown
    ensures barber in Barbers ==> (shown <==> barber.id != AnyBarberId)
  {
    barber.available && barber.id != AnyBarberId
  }

  /** `barber.experience &&`: the experience line. */
  function ShowsExperience(barber: Barber): (shown: bool)
    ensures shown <==> |barber.experience| > 0
    ensures barber in Barbers ==> (shown <==> barber.id != AnyBarberId)
  {
    barber.experience != ""
  }

  /** `barber.totalReviews > 0`: the rating row. */
  function ShowsRating(barber: Barber): (shown: bool)
    ensures shown ==> barber.totalReviews >= 1
    ensures barber in Barbers ==> (shown <==> barber.id != AnyBarberId)
  {
    barber.totalReviews > 0
  }

  /** Ids are distinct and non-empty, and the last card is the "first available" sentinel. */
  lemma CatalogueWellFormed()
    ensures |Barbers| == 4
    ensures forall i, j :: 0 <= i < j < |Barbers| ==> Barbers[i].id != Barbers[j].id
    ensures forall i :: 0 <= i < |Barbers| ==> Barbers[i].id != ""
    ensures Barbers[3].id == AnyBarberId
  {
    forall i, j | 0 <= i < j < |Barbers| ensures Barbers[i].id != Barbers[j].id {
      if j == 3 {
        assert |Barbers[i].id| == 1;
      } else {
        assert Barbers[i].id == [(49 + i) as char];
        assert Barbers[j].id == [(49 + j) as char];
      }
    }
  }

  /** Selecting a barber writes its id and name and changes no other key of the draft. */
  lemma SelectBarberEffect(d: BookingData, barber: Barber)
    ensures var r := Merge(d, BarberPatch(barber));
      && r.barberId == Some(barber.id) && r.barberName == Some(barber.name)
      && (forall k :: k !in {BarberId, BarberName} ==> Get(r, k) == Get(d, k))
      && IsSelected(r, barber)
  {
  }

  /** At most one card of the catalogue is highlighted at a time. */
  lemma AtMostOneSelected(d: BookingData, i: int, j: int)
    requires 0 <= i < |Barbers| && 0 <= j < |Barbers|
    requires IsSelected(d, Barbers[i]) && IsSelected(d, Barbers[j])
    ensures i == j
  {
    CatalogueWellFormed();
  }

  /** After choosing any card, the sentinel included, the barber step's gate is open. */
  lemma SelectionOpensBarberGate(d: BookingData, i: int)
    requires 0 <= i < |Barbers|
    ensures CanProceed(Merge(d, BarberPatch(Barbers[i])), 1)
  {
    CatalogueWellFormed();
  }

  /** The sentinel shows neither dot, experience nor rating; every named barber shows all three. */
  lemma CardDisplay(i: int)
    requires 0 <= i < |Barbers|
    ensures Barbers[i].id == AnyBarberId ==>
      !ShowsAvailabilityDot(Barbers[i]) && !ShowsExperience(Barbers[i]) && !ShowsRating(Barbers[i])
    ensures Barbers[i].id != AnyBarberId ==>
      ShowsAvailabilityDot(Barbers[i]) && ShowsExperience(Barbers[i]) && ShowsRating(Barbers[i])
  {
  }
}
