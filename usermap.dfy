/** The user map: the registered users that have a location, a marker per
    such user, the map centre, and the details modal a marker opens. */
module UserMap {
  import opened Common

  /** A coordinate is JavaScript-truthy: present and not 0. */
  predicate IsTruthy(c: Option<real>) {
    c.Some? && c.value != 0.0
  }

  /** A user as `/auth/user/list` returns it (the fields the screen reads). */
  datatype User = User(latitude: Option<real>, longitude: Option<real>, firstName: string, surname: string, registrationId: string)

  /** `u.latitude && u.longitude`. */
  predicate HasLocation(u: User) {
    IsTruthy(u.latitude) && IsTruthy(u.longitude)
  }

  /** `users.filter(u => u.latitude && u.longitude)`. */
  function WithLocation(users: seq<User>): (kept: seq<User>)
    ensures |kept| <= |users|
    ensures forall i :: 0 <= i < |kept| ==> HasLocation(kept[i])
    ensures forall u :: u in kept <==> u in users && HasLocation(u)
  {
    if users == [] then []
    else (if HasLocation(users[0]) then [users[0]] else []) + WithLocation(users[1..])
  }

  /** The filter works element by element and keeps order: filtering a
      concatenation is concatenating the filtered parts. */
  lemma {:induction false} WithLocationOfConcat(a: seq<User>, b: seq<User>)
    ensures WithLocation(a + b) == WithLocation(a) + WithLocation(b)
    decreases |a|
  {
    if a == [] {
      assert a + b == b;
    } else {
      assert (a + b)[0] == a[0];
      assert (a + b)[1..] == a[1..] + b;
      WithLocationOfConcat(a[1..], b);
    }
  }

  /** A list whose users all have a location passes the filter unchanged. */
  lemma {:induction false} WithLocationKeepsLocated(users: seq<User>)
    requires forall i :: 0 <= i < |users| ==> HasLocation(users[i])
    ensures WithLocation(users) == users
    decreases |users|
  {
    if users != [] {
      assert HasLocation(users[0]);
      WithLocationKeepsLocated(users[1..]);
    }
  }

  /** Filtering twice is filtering once. */
  lemma WithLocationIdempotent(users: seq<User>)
    ensures WithLocation(WithLocation(users)) == WithLocation(users)
  {
    WithLocationKeepsLocated(WithLocation(users));
  }

  /** The first kept user is the first user of the response that has a location. */
  lemma {:induction false} FirstKeptIsFirstLocated(users: seq<User>, k: int)
    requires 0 <= k < |users| && HasLocation(users[k])
    requires forall j :: 0 <= j < k ==> !HasLocation(users[j])
    ensures |WithLocation(users)| > 0 && WithLocation(users)[0] == users[k]
    decreases k
  {
    if k > 0 {
      assert !HasLocation(users[0]);
      FirstKeptIsFirstLocated(users[1..], k - 1);
    }
  }

  /** A map position. */
  datatype LatLng = LatLng(lat: real, lng: real)

  /** The centre the map starts at (India). */
  const DefaultCenter := LatLng(20.5937, 78.9629)

  /** One entry of the `markers` list of `generateMapHTML`: the user's
      coordinates and the index its "View Details" button posts back. */
  datatype Marker = Marker(lat: Option<real>, lng: Option<real>, index: int)

  /** `users.map((user, index) => ...)`: one marker per user, in order. */
  function Markers(users: seq<User>): (markers: seq<Marker>)
    ensures |markers| == |users|
  {
    seq(|users|, i requires 0 <= i < |users| => Marker(users[i].latitude, users[i].longitude, i))
  }

  /** `users[index]`: the user at the index, `undefined` (None) outside the list. */
  function UserAt(users: seq<User>, index: int): (u: Option<User>)
    ensures u.Some? <==> 0 <= index < |users|
    ensures u.Some? ==> u.value == users[index]
  {
    if 0 <= index < |users| then Some(users[index]) else None
  }

  /** The index a marker posts back selects the very user the marker was drawn
      for, so the modal shows the user whose coordinates the marker carries. */
  lemma MarkerSelectsItsUser(users: seq<User>, i: int)
    requires 0 <= i < |users|
    ensures UserAt(users, Markers(users)[i].index) == Some(users[i])
    ensures Markers(users)[i].lat == users[i].latitude && Markers(users)[i].lng == users[i].longitude
  {
  }

  /** A message from the web view: text that does not parse, or an object with
      an `action` and an `index`. */
  datatype WebViewMessage = Unparseable | Posted(action: string, index: int)

  const LoadFailedAlert := Alert("Error", "Could not fetch user data. Please check your connection.")

  class MapScreen {
    var users: seq<User>
    var mapCenter: LatLng
    var selectedUser: Option<User>
    var modalVisible: bool
    var webViewKey: int
    var loading: bool

    /** Every user shown has a location. */
    ghost predicate Valid()
      reads this
    {
      forall i :: 0 <= i < |users| ==> HasLocation(users[i])
    }

    constructor ()
      ensures Valid()
      ensures users == [] && mapCenter == DefaultCenter && selectedUser == None
      ensures !modalVisible && webViewKey == 0 && loading
    {
      users := [];
      mapCenter := DefaultCenter;
      selectedUser := None;
      modalVisible := false;
      webViewKey := 0;
      loading := true;
    }

    /** The details modal is on screen. It is drawn only by the last return of
        the component, past the loading and no-users early returns, and there
        only as `selectedUser && <Modal visible={modalVisible}>`. */
    predicate ModalShown()
      reads this
    {
      !loading && |users| > 0 && selectedUser.Some? && modalVisible
    }

    /** `loadUsersData`: a successful load keeps the users with a location and
        centres the map on the first of them, if any; a failed load keeps the
        users and the centre. Either way loading ends and the web view key
        goes up by one. */
    method LoadUsersData(response: Response<seq<User>>) returns (alert: Option<Alert>)
      requires Valid()
      modifies this
      ensures Valid()
      ensures response.Ok? ==> users == WithLocation(response.data) && alert == None
      ensures response.Ok? && |users| > 0 ==> mapCenter == LatLng(users[0].latitude.value, users[0].longitude.value)
      ensures response.Ok? && |users| == 0 ==> mapCenter == old(mapCenter)
      ensures !response.Ok? ==> users == old(users) && mapCenter == old(mapCenter) && alert == Some(LoadFailedAlert)
      ensures !loading && webViewKey == old(webViewKey) + 1
      ensures selectedUser == old(selectedUser) && modalVisible == old(modalVisible)
      ensures ModalShown() <==> |users| > 0 && selectedUser.Some? && modalVisible
    {
      loading := true;
      if response.Ok? {
        var fetchedUsers := WithLocation(response.data);
        users := fetchedUsers;
        if |fetchedUsers| > 0 {
          mapCenter := LatLng(fetchedUsers[0].latitude.value, fetchedUsers[0].longitude.value);
        }
        alert := None;
      } else {
        alert := Some(LoadFailedAlert);
      }
      loading := false;
      webViewKey := webViewKey + 1;
    }

    /** `handleWebViewMessage`: a "showDetails" message selects `users[index]`
        and opens the modal; anything else changes nothing. */
    method HandleWebViewMessage(message: WebViewMessage)
      modifies this
      ensures message.Posted? && message.action == "showDetails" ==>
                selectedUser == UserAt(users, message.index) && modalVisible
      ensures !(message.Posted? && message.action == "showDetails") ==>
                selectedUser == old(selectedUser) && modalVisible == old(modalVisible)
      ensures users == old(users) && mapCenter == old(mapCenter)
      ensures webViewKey == old(webViewKey) && loading == old(loading)
    {
      match message {
        case Unparseable =>
        case Posted(action, index) =>
          if action == "showDetails" {
            selectedUser := UserAt(users, index);
            modalVisible := true;
          }
      }
    }

    /** The modal's close button (and the back gesture). */
    method CloseModal()
      modifies this
      ensures !modalVisible && !ModalShown()
      ensures selectedUser == old(selectedUser) && users == old(users) && mapCenter == old(mapCenter)
      ensures webViewKey == old(webViewKey) && loading == old(loading)
    {
      modalVisible := false;
    }
  }

  /** Pressing the details button of marker `i` shows the modal for user `i`.
      The markers live in the web view, which is drawn only once loading has
      ended and there is a user to show. */
  method ShowMarkerDetails(screen: MapScreen, i: int)
    requires !screen.loading && 0 <= i < |screen.users|
    modifies screen
    ensures screen.ModalShown() && screen.selectedUser == Some(old(screen.users)[i])
  {
    var marker := Markers(screen.users)[i];
    screen.HandleWebViewMessage(Posted("showDetails", marker.index));
  }
}
