/** Django's auth user, identified by its username; `str(user)` is the username. */
module Users {
  type User = string
}
