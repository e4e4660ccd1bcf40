/**
 * The login form (login/page.tsx): a mock check of one credential pair;
 * on success the user record is stored under "user" and the browser is
 * sent to the home page.
 */
module Login {
  import opened Optional

  /** The record stored, as JSON, under "user"; the navigation bar reads it back. */
  datatype StoredUser = StoredUser(name: string, email: string, role: string)

  /** Local storage: the parsed record under each key that holds one. */
  type Storage = map<string, StoredUser>

  const UserKey := "user"
  const MockEmail := "user@gmail.com"
  const MockPassword := "123456"
  const BothMessage := "Please enter both email and password."
  const InvalidMessage := "Invalid email or password."

  /** The record a successful login stores for `email`. */
  function LoggedInUser(email: string): (u: StoredUser)
    ensures u.name == "Hamza" && u.email == email && u.role == "ORGANIZER"
  {
    StoredUser("Hamza", email, "ORGANIZER")
  }

  /** The form state, with the browser's storage and location passed in. */
  class LoginForm {
    var email: string
    var password: string
    var remember: bool
    var errorMessage: string
    var storage: Storage
    var location: string

    constructor (storage0: Storage, location0: string)
      ensures email == "" && password == "" && !remember && errorMessage == ""
      ensures storage == storage0 && location == location0
    {
      email, password := "", "";
      remember := false;
      errorMessage := "";
      storage, location := storage0, location0;
    }

    /**
     * `login()`: an empty field is reported and nothing else happens; only
     * the mock pair succeeds, storing the user record, clearing the message
     * and navigating to "/"; any other pair is reported as invalid and
     * nothing is stored.
     */
    method Login()
      modifies this`errorMessage, this`storage, this`location
      ensures email == "" || password == "" ==>
        errorMessage == BothMessage && storage == old(storage) && location == old(location)
      ensures email == MockEmail && password == MockPassword ==>
        && storage == old(storage)[UserKey := LoggedInUser(email)]
        && errorMessage == "" && location == "/"
      ensures email != "" && password != "" && !(email == MockEmail && password == MockPassword) ==>
        errorMessage == InvalidMessage && storage == old(storage) && location == old(location)
    {
      if email == "" || password == "" {
        errorMessage := BothMessage;
        return;
      }
      if email == MockEmail && password == MockPassword {
        storage := storage[UserKey := LoggedInUser(email)];
        errorMessage := "";
        location := "/";
      } else {
        errorMessage := InvalidMessage;
      }
    }
  }
}
