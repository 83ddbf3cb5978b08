/** The ServiceGo repair-booking form: device, model, service, date, time
    and technician selection, the price estimate of the chosen service and
    the availability check. */
module ServiceGo {
  import opened Common

  datatype PriceRange = PriceRange(low: int, high: int)

  datatype ServiceType = ServiceType(id: string, name: string, priceRange: PriceRange)

  /** The services offered, with their estimated price ranges in rupiah. */
  const ServiceTypes: seq<ServiceType> := [
    ServiceType("screen", "Screen Replacement", PriceRange(300000, 1500000)),
    ServiceType("battery", "Battery Replacement", PriceRange(200000, 700000)),
    ServiceType("charging", "Charging Port Repair", PriceRange(150000, 400000)),
    ServiceType("water", "Water Damage Repair", PriceRange(500000, 2000000)),
    ServiceType("software", "Software Issues", PriceRange(250000, 800000)),
    ServiceType("camera", "Camera Repair", PriceRange(400000, 1200000)),
    ServiceType("audio", "Audio Issues", PriceRange(200000, 600000))
  ]

  /** Every estimate is a proper range and no two services share an id, so
      a service id picks at most one estimate. */
  lemma ServiceTableWellFormed()
    ensures forall i :: 0 <= i < |ServiceTypes| ==> ServiceTypes[i].priceRange.low <= ServiceTypes[i].priceRange.high
    ensures forall i, j :: 0 <= i < j < |ServiceTypes| ==> ServiceTypes[i].id != ServiceTypes[j].id
  {
  }

  /** `serviceTypes.find(s => s.id === id)` over a table. */
  function FindService(table: seq<ServiceType>, id: string): Option<ServiceType>
  {
    if table == [] then None
    else if table[0].id == id then Some(table[0])
    else FindService(table[1..], id)
  }

  /** The found service has the id asked for and is an entry of the table;
      nothing is found exactly when no entry has that id. */
  lemma {:induction false} FindServiceFinds(table: seq<ServiceType>, id: string)
    ensures var r := FindService(table, id);
      && (r.Some? ==> r.value in table && r.value.id == id)
      && (r.None? <==> forall i :: 0 <= i < |table| ==> table[i].id != id)
  {
    if table != [] && table[0].id != id {
      FindServiceFinds(table[1..], id);
      assert forall i :: 1 <= i < |table| ==> table[i] == table[1..][i - 1];
    }
  }

  /** Every service has a non-empty id, so the empty selection finds none. */
  lemma FoundServiceHasId(id: string)
    ensures FindService(ServiceTypes, id).Some? ==> id != ""
  {
    FindServiceFinds(ServiceTypes, id);
  }

  datatype DeviceModel = DeviceModel(id: string, name: string)

  /** `deviceModels[deviceType]`: the models of a known device type. */
  function DeviceModels(deviceType: string): (r: Option<seq<DeviceModel>>)
    ensures r.Some? <==> deviceType == "iphone" || deviceType == "ipad" || deviceType == "macbook"
    ensures r.Some? ==> |r.value| > 0
  {
    if deviceType == "iphone" then Some([
      DeviceModel("iphone15", "iPhone 15"), DeviceModel("iphone15pro", "iPhone 15 Pro"),
      DeviceModel("iphone14", "iPhone 14"), DeviceModel("iphone13", "iPhone 13"),
      DeviceModel("iphone12", "iPhone 12"), DeviceModel("iphone11", "iPhone 11"),
      DeviceModel("iphonese", "iPhone SE")])
    else if deviceType == "ipad" then Some([
      DeviceModel("ipadpro", "iPad Pro"), DeviceModel("ipadair", "iPad Air"),
      DeviceModel("ipadmini", "iPad Mini"), DeviceModel("ipad10", "iPad 10th Gen")])
    else if deviceType == "macbook" then Some([
      DeviceModel("macbookair", "MacBook Air"), DeviceModel("macbookpro", "MacBook Pro"),
      DeviceModel("macbookpro14", "MacBook Pro 14\""), DeviceModel("macbookpro16", "MacBook Pro 16\"")])
    else None
  }

  /** One entry of the model select. */
  datatype ModelOption = ModelOption(value: string, text: string, disabled: bool)

  const Placeholder := ModelOption("unselected", "Pilih jenis perangkat terlebih dahulu", true)

  /** The model select's entries: the models of the chosen device type, or
      only the disabled placeholder when the type is empty, "other" or
      unknown. */
  function ModelOptions(deviceType: string): (r: seq<ModelOption>)
    ensures DeviceModels(deviceType).None? ==> r == [Placeholder]
    ensures deviceType == "" || deviceType == "other" ==> r == [Placeholder]
    ensures DeviceModels(deviceType).Some? ==>
      var models := DeviceModels(deviceType).value;
      && |r| == |models|
      && forall i :: 0 <= i < |r| ==> r[i] == ModelOption(models[i].id, models[i].name, false)
  {
    match DeviceModels(deviceType)
    case Some(models) =>
      seq(|models|, i requires 0 <= i < |models| => ModelOption(models[i].id, models[i].name, false))
    case None => [Placeholder]
  }

  /** The values a user can pick in the model select (the enabled entries). */
  function SelectableModels(deviceType: string): (r: set<string>)
    ensures DeviceModels(deviceType).None? ==> r == {}
    ensures deviceType == "" || deviceType == "other" ==> r == {}
    ensures forall v :: v in r ==> v != "" && v != Placeholder.value
    ensures DeviceModels(deviceType).Some? ==>
      forall v :: v in r <==> exists m :: m in DeviceModels(deviceType).value && m.id == v
  {
    var options := ModelOptions(deviceType);
    set i | 0 <= i < |options| && !options[i].disabled :: options[i].value
  }

  /** The outcome of the availability check's first half. */
  datatype CheckStart = MissingSelection | Checking

  /** The form's state. `selectedDate` is a calendar day, left abstract. */
  class BookingForm {
    var deviceType: string
    var deviceModel: string
    var serviceType: string
    var selectedDate: Option<int>
    var selectedTime: string
    var selectedTechnician: string
    var priceRange: Option<PriceRange>
    var checking: bool

    /** The chosen model belongs to the chosen device type, and the price
        estimate is exactly that of the chosen service. */
    ghost predicate Valid()
      reads this
    {
      && (deviceModel == "" || deviceModel in SelectableModels(deviceType))
      && (serviceType == "" <==> priceRange.None?)
      && (serviceType != "" ==>
            FindService(ServiceTypes, serviceType).Some?
            && priceRange == Some(FindService(ServiceTypes, serviceType).value.priceRange))
    }

    /** Every one of the six selections is made. A complete form that keeps
        its invariant is for one of the three known device types and has a
        price estimate. */
    predicate Complete()
      reads this
      ensures Complete() && Valid() ==>
        (deviceType == "iphone" || deviceType == "ipad" || deviceType == "macbook") && priceRange.Some?
    {
      deviceType != "" && deviceModel != "" && serviceType != "" &&
      selectedDate.Some? && selectedTime != "" && selectedTechnician != ""
    }

    /** The check button is disabled iff a check is running or a selection
        is missing, which is the check's own guard plus `checking`. */
    predicate CheckDisabled()
      reads this
      ensures !CheckDisabled() ==> !checking && Complete()
      ensures Valid() && !CheckDisabled() ==>
        deviceModel in SelectableModels(deviceType) && priceRange == Some(FindService(ServiceTypes, serviceType).value.priceRange)
    {
      checking || !Complete()
    }

    constructor ()
      ensures Valid() && !checking && !Complete()
      ensures deviceType == "" && deviceModel == "" && serviceType == "" && priceRange == None
      ensures selectedDate == None && selectedTime == "" && selectedTechnician == ""
    {
      deviceType, deviceModel, serviceType := "", "", "";
      selectedDate, selectedTime, selectedTechnician := None, "", "";
      priceRange, checking := None, false;
    }

    /** `handleDeviceChange`: set the type and clear the model. */
    method HandleDeviceChange(value: string)
      requires Valid()
      modifies this
      ensures Valid()
      ensures deviceType == value && deviceModel == ""
      ensures serviceType == old(serviceType) && priceRange == old(priceRange) && checking == old(checking)
      ensures selectedDate == old(selectedDate) && selectedTime == old(selectedTime)
      ensures selectedTechnician == old(selectedTechnician)
    {
      deviceType := value;
      deviceModel := "";
    }

    /** The model select, whose enabled entries are the type's models. */
    method SetDeviceModel(value: string)
      requires Valid() && value in SelectableModels(deviceType)
      modifies this
      ensures Valid() && deviceModel == value
      ensures deviceType == old(deviceType) && serviceType == old(serviceType) && priceRange == old(priceRange)
      ensures selectedDate == old(selectedDate) && selectedTime == old(selectedTime)
      ensures selectedTechnician == old(selectedTechnician) && checking == old(checking)
    {
      deviceModel := value;
    }

    /** `handleServiceChange`: a known service sets the service and its
        estimate; an unknown id changes neither. */
    method HandleServiceChange(value: string)
      requires Valid()
      modifies this
      ensures Valid()
      ensures match FindService(ServiceTypes, value)
        case Some(s) => serviceType == value && priceRange == Some(s.priceRange)
        case None => serviceType == old(serviceType) && priceRange == old(priceRange)
      ensures deviceType == old(deviceType) && deviceModel == old(deviceModel) && checking == old(checking)
      ensures selectedDate == old(selectedDate) && selectedTime == old(selectedTime)
      ensures selectedTechnician == old(selectedTechnician)
    {
      var service := FindService(ServiceTypes, value);
      if service.Some? {
        FoundServiceHasId(value);
        serviceType := value;
        priceRange := Some(service.value.priceRange);
      }
    }

    /** The calendar, the time select and the technician cards. */
    method SetSchedule(date: Option<int>, time: string, technician: string)
      requires Valid()
      modifies this
      ensures Valid()
      ensures selectedDate == date && selectedTime == time && selectedTechnician == technician
      ensures deviceType == old(deviceType) && deviceModel == old(deviceModel)
      ensures serviceType == old(serviceType) && priceRange == old(priceRange) && checking == old(checking)
    {
      selectedDate, selectedTime, selectedTechnician := date, time, technician;
    }

    /** `handleCheckAvailability` up to its `await`: with a selection
        missing it returns without touching `checking`; otherwise it sets
        `checking`. */
    method StartCheck() returns (outcome: CheckStart)
      modifies this
      ensures outcome == MissingSelection <==> !old(Complete())
      ensures outcome == MissingSelection ==> checking == old(checking)
      ensures outcome == Checking ==> checking
      ensures deviceType == old(deviceType) && deviceModel == old(deviceModel)
      ensures serviceType == old(serviceType) && priceRange == old(priceRange)
      ensures selectedDate == old(selectedDate) && selectedTime == old(selectedTime)
      ensures selectedTechnician == old(selectedTechnician)
    {
      if !Complete() {
        return MissingSelection;
      }
      checking := true;
      outcome := Checking;
    }

    /** The `finally` after the `await`: the check is over. */
    method FinishCheck()
      modifies this
      ensures !checking
      ensures deviceType == old(deviceType) && deviceModel == old(deviceModel)
      ensures serviceType == old(serviceType) && priceRange == old(priceRange)
      ensures selectedDate == old(selectedDate) && selectedTime == old(selectedTime)
      ensures selectedTechnician == old(selectedTechnician)
    {
      checking := false;
    }
  }

  /** An enabled check button always starts a check: the button's rule
      implies the handler's guard. */
  method PressCheckButton(form: BookingForm) returns (outcome: CheckStart)
    requires !form.CheckDisabled()
    modifies form
    ensures outcome == Checking && form.checking
  {
    outcome := form.StartCheck();
  }
}
