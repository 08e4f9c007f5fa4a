/** Values shared by the screens of the dairy survey client. */
module Common {

  /** A JavaScript value that may be `null`/`undefined` (None) or present. */
  datatype Option<+T> = None | Some(value: T) {
    function GetOr(default: T): T {
      match this
      case Some(v) => v
      case None => default
    }
  }

  /** The result of one network call, as the screen observes it: a response with
      `ok` set and its decoded body, a response whose `ok` is false, or a thrown
      error (network failure, bad JSON). */
  datatype Response<+T> = Ok(data: T) | NotOk | Threw

  /** A user id from the navigation parameters. JavaScript's `!userId` treats a
      missing id and the number 0 alike, so only a present non-zero id passes. */
  predicate HasId(id: Option<int>) {
    id.Some? && id.value != 0
  }

  /** The `lucide-react-native` icons the screens choose between. */
  datatype Icon =
    | Home | Shield | Wind | Droplets | Trash2 | Camera
    | XCircle | AlertCircle | CheckCircle
    | Building | Archive | Leaf | Syringe | Clipboard | Milk

  /** The parameters of the `Infra` route: `{ userId, sectionId, sectionName }`,
      each possibly `undefined`. */
  datatype InfraParams = InfraParams(userId: Option<int>, sectionId: Option<int>, sectionName: Option<string>)

  /** A user-facing `Alert.alert(title, message)`. */
  datatype Alert = Alert(title: string, message: string)
}
