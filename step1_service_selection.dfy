/**
 * Step 1 of the wizard (components/booking/Step1ServiceSelection.tsx): the
 * service catalogue and the handler that copies a chosen service into the draft.
 */
module ServiceSelection {
  import opened Prelude
  import opened Booking

  datatype Service = Service(
    id: string,
    name: string,
    price: int,     // euros
    duration: int,  // minutes
    description: string,
    popular: bool,
    includes: seq<string>)

  /** The constant catalogue `services`. */
  const Services: seq<Service> := [
    Service("1", "Coupe Classique", 35, 45,
            "Coupe aux ciseaux traditionnelle avec finitions", false,
            ["Shampoing", "Coupe", "Styling", "Finitions"]),
    Service("2", "Coupe + Barbe", 50, 60,
            "Service complet coupe et entretien barbe", true,
            ["Shampoing", "Coupe", "Taille barbe", "Soin barbe", "Styling"]),
    Service("3", "Entretien Barbe", 25, 30,
            "Taille et soin de la barbe", false,
            ["Taille", "Rasage contours", "Huile barbe"]),
    Service("4", "Rasage Traditionnel", 40, 40,
            "Rasage au coupe-chou avec serviette chaude", false,
            ["Préparation", "Rasage traditionnel", "Serviette chaude", "Baume"]),
    Service("5", "Coupe Premium", 55, 75,
            "Coupe signature avec massage et soins", false,
            ["Consultation", "Shampoing premium", "Coupe", "Massage crânien", "Styling"]),
    Service("6", "Service Complet", 85, 90,
            "Expérience complète coupe, barbe et soins", true,
            ["Tout inclus", "Massage", "Soins visage", "Boisson offerte"])
  ]

  /** The partial that `handleSelectService` passes to `updateBooking`. */
  function ServicePatch(service: Service): PartialBookingData {
    NoChange.(
      serviceId := Present(Some(service.id)),
      serviceName := Present(Some(service.name)),
      servicePrice := Present(Some(service.price)),
      serviceDuration := Present(Some(service.duration)))
  }

  const ServiceKeys: set<Key> := {ServiceId, ServiceName, ServicePrice, ServiceDuration}

  /** `handleSelectService(service)` (lines 75-82). */
  method HandleSelectService(store: BookingStore, service: Service)
    modifies store
    ensures store.bookingData == Merge(old(store.bookingData), ServicePatch(service))
    ensures store.currentStep == old(store.currentStep)
  {
    store.UpdateBooking(ServicePatch(service));
  }

  /** `bookingData.serviceId === service.id`: the card is highlighted. */
  function IsSelected(d: BookingData, service: Service): (selected: bool)
    ensures selected && service.id != "" ==> CanProceed(d, 0)
  {
    d.serviceId == Some(service.id)
  }

  /** Ids are distinct and non-empty; prices and durations are positive. */
  lemma CatalogueWellFormed()
    ensures |Services| == 6
    ensures forall i, j :: 0 <= i < j < |Services| ==> Services[i].id != Services[j].id
    ensures forall i :: 0 <= i < |Services| ==> Services[i].id != ""
    ensures forall i :: 0 <= i < |Services| ==> Services[i].price > 0 && Services[i].duration > 0
  {
    forall i, j | 0 <= i < j < |Services| ensures Services[i].id != Services[j].id {
      assert Services[i].id == [(49 + i) as char];
      assert Services[j].id == [(49 + j) as char];
    }
  }

  /**
   * Selecting a service writes its id, name, price and duration into the draft,
   * leaves barber, date, time and client fields alone, and makes it the selected card.
   */
  lemma SelectServiceEffect(d: BookingData, service: Service)
    ensures var r := Merge(d, ServicePatch(service));
      && r.serviceId == Some(service.id) && r.serviceName == Some(service.name)
      && r.servicePrice == Some(service.price) && r.serviceDuration == Some(service.duration)
      && (forall k :: k !in ServiceKeys ==> Get(r, k) == Get(d, k))
      && IsSelected(r, service)
  {
  }

  /** Choosing a second service replaces all four service fields: no stale price or duration remains. */
  lemma ReselectLeavesNothingStale(d: BookingData, first: Service, second: Service)
    ensures Merge(Merge(d, ServicePatch(first)), ServicePatch(second)) == Merge(d, ServicePatch(second))
  {
    MergeLaterCovers(d, ServicePatch(first), ServicePatch(second));
  }

  /** At most one card of the catalogue is highlighted at a time. */
  lemma AtMostOneSelected(d: BookingData, i: int, j: int)
    requires 0 <= i < |Services| && 0 <= j < |Services|
    requires IsSelected(d, Services[i]) && IsSelected(d, Services[j])
    ensures i == j
  {
    CatalogueWellFormed();
  }

  /** After choosing any catalogue entry the service step's gate is open. */
  lemma SelectionOpensServiceGate(d: BookingData, i: int)
    requires 0 <= i < |Services|
    ensures CanProceed(Merge(d, ServicePatch(Services[i])), 0)
  {
    CatalogueWellFormed();
  }
}
