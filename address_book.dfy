/** The saved-address screen of `app/address.js`: the address form and its edits, the
    add/edit modal, locating the device into the form, and the add, update and delete
    handlers, each of which re-fetches the whole list after the server accepts it.
    Server traffic is recorded as a list of requests; replies are inputs. */
module AddressBook {
  import opened JsCore

  const DefaultType := "Home"
  const FetchFallback := "Failed to fetch addresses"
  const AddFallback := "Failed to add address"
  const UpdateFallback := "Failed to update address"
  const DeleteFallback := "Failed to delete address"

  /** A saved address; `id` is absent on one that has not been saved yet. */
  datatype Address = Address(
    id: Option<int>,
    street: string, city: string, state: string, postalCode: string, landmark: string,
    addressType: string,
    latitude: real, longitude: real)

  /** The form's text inputs. */
  datatype AddressField = Street | City | State | PostalCode | Landmark

  /** A call to the server: `GET /customer/get-customer-address`, `POST /customer/add-address`,
      `PUT /customer/update-address/<id>` and `DELETE /customer/delete-address/<id>`. */
  datatype Request = ListAddresses | AddAddress(body: Address) | UpdateAddress(id: Option<int>, body: Address) | DeleteAddress(id: Option<int>)

  /** What the screen shows. */
  datatype View = Spinner | ErrorView(message: string) | AddressList(items: seq<Address>)

  /** The empty form: blank text, type "Home", no coordinates. */
  const BlankAddress := Address(None, "", "", "", "", "", DefaultType, 0.0, 0.0)

  // ---------------------------------------------------------------------------
  // Form records

  function FieldValue(a: Address, f: AddressField): string {
    match f
    case Street => a.street
    case City => a.city
    case State => a.state
    case PostalCode => a.postalCode
    case Landmark => a.landmark
  }

  /** `{...prev, [field]: value}`: that field reads the new value and nothing else changes. */
  function WithField(a: Address, f: AddressField, v: string): (r: Address)
    ensures FieldValue(r, f) == v
    ensures forall g :: g != f ==> FieldValue(r, g) == FieldValue(a, g)
    ensures r.id == a.id && r.addressType == a.addressType
    ensures r.latitude == a.latitude && r.longitude == a.longitude
  {
    match f
    case Street => a.(street := v)
    case City => a.(city := v)
    case State => a.(state := v)
    case PostalCode => a.(postalCode := v)
    case Landmark => a.(landmark := v)
  }

  /** Putting the old text back undoes an edit. */
  lemma EditUndone(a: Address, f: AddressField, v: string)
    ensures WithField(WithField(a, f, v), f, FieldValue(a, f)) == a
  {
  }

  /** The merge after locating: the coordinates are the position's and every other part of the form is kept. */
  function WithCoordinates(a: Address, c: Coords): (r: Address)
    ensures r.latitude == c.latitude && r.longitude == c.longitude
    ensures forall f :: FieldValue(r, f) == FieldValue(a, f)
    ensures r.id == a.id && r.addressType == a.addressType
  {
    a.(latitude := c.latitude, longitude := c.longitude)
  }

  /** Typing into the form and locating the device do not interfere: either order gives the same form. */
  lemma EditAndLocateCommute(a: Address, f: AddressField, v: string, c: Coords)
    ensures WithField(WithCoordinates(a, c), f, v) == WithCoordinates(WithField(a, f, v), c)
  {
  }

  /** The save button is disabled while loading or while the latitude is falsy (zero). */
  function SaveDisabledFor(loading: bool, a: Address): (d: bool)
    ensures d <==> loading || a.latitude == 0.0
    ensures !loading && a == BlankAddress ==> d
  {
    loading || a.latitude == 0.0
  }

  /** The request the save button sends: an update of the form's own id in edit mode, an add otherwise. */
  function SubmitRequest(editMode: bool, a: Address): (r: Request)
    ensures r.UpdateAddress? <==> editMode
    ensures r.AddAddress? <==> !editMode
    ensures r.body == a
    ensures r.UpdateAddress? ==> r.id == a.id
  {
    if editMode then UpdateAddress(a.id, a) else AddAddress(a)
  }

  /** The traffic of one mutation: the mutation, then a full re-fetch of the list when the server accepted it. */
  function MutationTraffic(request: Request, accepted: bool): (t: seq<Request>)
    ensures |t| >= 1 && t[0] == request
    ensures accepted <==> |t| == 2
    ensures accepted ==> t[1] == ListAddresses
  {
    [request] + (if accepted then [ListAddresses] else [])
  }

  /** The traffic of a run splits at any call: what the calls before it sent, then its
      own traffic, then what the calls after it sent. */
  lemma {:induction false} TrafficSplit(requests: seq<Request>, accepted: seq<bool>, i: nat)
    requires |requests| == |accepted| && i < |requests|
    ensures Traffic(requests, accepted)
      == Traffic(requests[..i], accepted[..i]) + MutationTraffic(requests[i], accepted[i])
         + Traffic(requests[i + 1..], accepted[i + 1..])
  {
    if i > 0 {
      TrafficSplit(requests[1..], accepted[1..], i - 1);
      assert requests[1..][..i - 1] == requests[1..i] && accepted[1..][..i - 1] == accepted[1..i];
      assert requests[1..][i - 1] == requests[i] && accepted[1..][i - 1] == accepted[i];
      assert requests[1..][i..] == requests[i + 1..] && accepted[1..][i..] == accepted[i + 1..];
      assert requests[..i][1..] == requests[1..i] && accepted[..i][1..] == accepted[1..i];
    }
  }

  /** In any run of add, update and delete handlers, the i-th call, when accepted, is
      followed at once by a list re-fetch: its request sits right after the traffic of
      the calls before it, and the next request is the re-fetch. */
  lemma AcceptedMutationsRefetch(requests: seq<Request>, accepted: seq<bool>, i: nat)
    requires |requests| == |accepted|
    requires i < |requests| && accepted[i]
    ensures var t := Traffic(requests, accepted);
      var p := |Traffic(requests[..i], accepted[..i])|;
      p + 1 < |t| && t[p] == requests[i] && t[p + 1] == ListAddresses
  {
    TrafficSplit(requests, accepted, i);
  }

  /** The traffic of a run of mutations, one after another. */
  function Traffic(requests: seq<Request>, accepted: seq<bool>): seq<Request>
    requires |requests| == |accepted|
  {
    if requests == [] then [] else MutationTraffic(requests[0], accepted[0]) + Traffic(requests[1..], accepted[1..])
  }

  /** The list is shown only when no error has been recorded; a spinner only on a first load. */
  function ViewOf(loading: bool, error: Option<string>, addresses: seq<Address>): (v: View)
    ensures v == Spinner <==> loading && addresses == []
    ensures v.ErrorView? <==> !(loading && addresses == []) && Present(error)
    ensures v.AddressList? ==> v.items == addresses && !Present(error)
  {
    if loading && addresses == [] then Spinner
    else if Present(error) then ErrorView(error.value)
    else AddressList(addresses)
  }

  // ---------------------------------------------------------------------------
  // The screen

  class AddressScreen {
    var addresses: seq<Address>
    var loading: bool
    var error: Option<string>
    var modalVisible: bool
    var mapModalVisible: bool
    var editMode: bool
    var currentLocation: Option<Coords>
    var currentAddress: Address
    /** Every request sent to the server so far, oldest first. */
    var sent: seq<Request>

    constructor ()
      ensures addresses == [] && loading && error == None
      ensures !modalVisible && !mapModalVisible && !editMode
      ensures currentLocation == None && currentAddress == BlankAddress && sent == []
    {
      addresses, loading, error := [], true, None;
      modalVisible, mapModalVisible, editMode := false, false, false;
      currentLocation, currentAddress, sent := None, BlankAddress, [];
    }

    /** Loads the list; a failure keeps the old list and records the server message or the fallback. */
    method FetchAddresses(list: Reply<seq<Address>>)
      modifies this`loading, this`addresses, this`error, this`sent
      ensures sent == old(sent) + [ListAddresses] && !loading
      ensures list.Ok? ==> addresses == list.data && error == old(error)
      ensures list.Failed? ==> addresses == old(addresses) && error == Some(OrElse(list.message, FetchFallback))
    {
      loading := true;
      sent := sent + [ListAddresses];
      match list {
        case Ok(items) =>
          addresses := items;
        case Failed(message) =>
          error := Some(OrElse(message, FetchFallback));
      }
      loading := false;
    }

    /** The part every mutation handler shares: send the request and, once accepted, re-fetch
        the list; a rejection records the server message or the handler's fallback. */
    method Mutate(request: Request, reply: Reply<()>, list: Reply<seq<Address>>, fallback: string)
      returns (accepted: bool)
      requires fallback != ""
      modifies this`loading, this`addresses, this`error, this`sent
      ensures accepted <==> reply.Ok?
      ensures sent == old(sent) + MutationTraffic(request, accepted) && !loading
      ensures accepted && list.Ok? ==> addresses == list.data && error == old(error)
      ensures accepted && list.Failed? ==> addresses == old(addresses) && error == Some(OrElse(list.message, FetchFallback))
      ensures !accepted ==> addresses == old(addresses) && error == Some(OrElse(reply.message, fallback))
      ensures old(Present(error)) ==> Present(error)
    {
      loading := true;
      sent := sent + [request];
      accepted := reply.Ok?;
      if accepted {
        FetchAddresses(list);
      } else {
        error := Some(OrElse(reply.message, fallback));
      }
      loading := false;
    }

    /** Adds the form as a new address; the modal closes once the server accepts it. */
    method HandleAddAddress(reply: Reply<()>, list: Reply<seq<Address>>)
      modifies this`loading, this`addresses, this`error, this`sent, this`modalVisible
      ensures sent == old(sent) + MutationTraffic(AddAddress(currentAddress), reply.Ok?) && !loading
      ensures reply.Ok? ==> !modalVisible && (list.Ok? ==> addresses == list.data && error == old(error))
      ensures reply.Ok? && list.Failed? ==> addresses == old(addresses) && error == Some(OrElse(list.message, FetchFallback))
      ensures reply.Failed? ==> modalVisible == old(modalVisible) && addresses == old(addresses) && error == Some(OrElse(reply.message, AddFallback))
      ensures old(Present(error)) ==> Present(error)
    {
      var accepted := Mutate(AddAddress(currentAddress), reply, list, AddFallback);
      if accepted {
        modalVisible := false;
      }
    }

    /** Replaces the address `id` with the form; once accepted the modal closes and edit mode ends. */
    method HandleUpdateAddress(id: Option<int>, reply: Reply<()>, list: Reply<seq<Address>>)
      modifies this`loading, this`addresses, this`error, this`sent, this`modalVisible, this`editMode
      ensures sent == old(sent) + MutationTraffic(UpdateAddress(id, currentAddress), reply.Ok?) && !loading
      ensures reply.Ok? ==> !modalVisible && !editMode && (list.Ok? ==> addresses == list.data && error == old(error))
      ensures reply.Ok? && list.Failed? ==> addresses == old(addresses) && error == Some(OrElse(list.message, FetchFallback))
      ensures reply.Failed? ==>
        && modalVisible == old(modalVisible) && editMode == old(editMode)
        && addresses == old(addresses) && error == Some(OrElse(reply.message, UpdateFallback))
      ensures old(Present(error)) ==> Present(error)
    {
      var accepted := Mutate(UpdateAddress(id, currentAddress), reply, list, UpdateFallback);
      if accepted {
        modalVisible := false;
        editMode := false;
      }
    }

    /** Deletes the address `id`; the modals are left as they are. */
    method HandleDeleteAddress(id: Option<int>, reply: Reply<()>, list: Reply<seq<Address>>)
      modifies this`loading, this`addresses, this`error, this`sent
      ensures sent == old(sent) + MutationTraffic(DeleteAddress(id), reply.Ok?) && !loading
      ensures reply.Ok? && list.Ok? ==> addresses == list.data && error == old(error)
      ensures reply.Ok? && list.Failed? ==> addresses == old(addresses) && error == Some(OrElse(list.message, FetchFallback))
      ensures reply.Failed? ==> addresses == old(addresses) && error == Some(OrElse(reply.message, DeleteFallback))
      ensures old(Present(error)) ==> Present(error)
    {
      var accepted := Mutate(DeleteAddress(id), reply, list, DeleteFallback);
    }

    /** Locates the device into the form. Anything but a granted permission, or a failed
        position, changes nothing but `loading`, which the cleanup always clears. */
    method GetCurrentLocation(permission: Reply<string>, position: Reply<Coords>)
      modifies this`loading, this`currentLocation, this`currentAddress, this`mapModalVisible
      ensures !loading
      ensures permission == Ok(Granted) && position.Ok? ==>
        && currentLocation == Some(position.data)
        && currentAddress == WithCoordinates(old(currentAddress), position.data)
        && mapModalVisible
      ensures !(permission == Ok(Granted) && position.Ok?) ==>
        currentLocation == old(currentLocation) && currentAddress == old(currentAddress) && mapModalVisible == old(mapModalVisible)
    {
      if permission != Ok(Granted) {
        loading := false;
        return;
      }
      loading := true;
      match position {
        case Ok(c) =>
          currentLocation := Some(c);
          currentAddress := WithCoordinates(currentAddress, c);
          mapModalVisible := true;
        case Failed(_) =>
      }
      loading := false;
    }

    /** One keystroke in a form input. */
    method HandleInputChange(f: AddressField, v: string)
      modifies this`currentAddress
      ensures currentAddress == WithField(old(currentAddress), f, v)
    {
      currentAddress := WithField(currentAddress, f, v);
    }

    /** Opens the modal on a copy of a saved address, centred on its coordinates, in edit mode. */
    method OpenEditModal(a: Address)
      modifies this`currentAddress, this`currentLocation, this`editMode, this`modalVisible
      ensures currentAddress == a && currentLocation == Some(Coords(a.latitude, a.longitude))
      ensures editMode && modalVisible
    {
      currentAddress := a;
      currentLocation := Some(Coords(a.latitude, a.longitude));
      editMode := true;
      modalVisible := true;
    }

    /** Opens the modal on a blank form in add mode; saving stays disabled until the device is located. */
    method OpenAddModal()
      modifies this`currentAddress, this`editMode, this`modalVisible
      ensures currentAddress == BlankAddress && !editMode && modalVisible
      ensures currentLocation == old(currentLocation)
      ensures SaveDisabled()
    {
      currentAddress := BlankAddress;
      editMode := false;
      modalVisible := true;
    }

    /** Closes the map once the location is confirmed. */
    method ConfirmLocation()
      modifies this`mapModalVisible
      ensures !mapModalVisible
    {
      mapModalVisible := false;
    }

    /** Whether the save button is disabled. */
    function SaveDisabled(): (d: bool)
      reads this
      ensures d <==> loading || currentAddress.latitude == 0.0
    {
      SaveDisabledFor(loading, currentAddress)
    }

    /** What the screen renders. */
    function CurrentView(): (v: View)
      reads this
      ensures v.AddressList? ==> !Present(error) && v.items == addresses
      ensures Present(error) && !loading ==> v == ErrorView(error.value)
    {
      ViewOf(loading, error, addresses)
    }

    /** The save button: in edit mode an update of the form's own id, otherwise an add. */
    method SubmitForm(reply: Reply<()>, list: Reply<seq<Address>>)
      modifies this`loading, this`addresses, this`error, this`sent, this`modalVisible, this`editMode
      ensures sent == old(sent) + MutationTraffic(SubmitRequest(old(editMode), currentAddress), reply.Ok?) && !loading
      ensures reply.Ok? ==> !modalVisible && !editMode
      ensures reply.Ok? && list.Ok? ==> addresses == list.data && error == old(error)
      ensures reply.Ok? && list.Failed? ==> addresses == old(addresses) && error == Some(OrElse(list.message, FetchFallback))
      ensures reply.Failed? ==> addresses == old(addresses)
      ensures reply.Failed? ==> modalVisible == old(modalVisible) && editMode == old(editMode)
      ensures reply.Failed? ==> error == Some(OrElse(reply.message, if old(editMode) then UpdateFallback else AddFallback))
      ensures old(Present(error)) ==> Present(error)
    {
      if editMode {
        HandleUpdateAddress(currentAddress.id, reply, list);
      } else {
        HandleAddAddress(reply, list);
      }
    }
  }

  /** Once a failure is recorded nothing clears it: after a save and then a delete,
      whatever the server replies, the screen shows an error instead of the list. */
  method ErrorIsSticky(screen: AddressScreen, save: Reply<()>, delete: Reply<()>, list: Reply<seq<Address>>, id: Option<int>)
    requires Present(screen.error)
    modifies screen
    ensures screen.CurrentView().ErrorView?
  {
    screen.SubmitForm(save, list);
    screen.HandleDeleteAddress(id, delete, list);
  }
}
