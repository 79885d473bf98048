/** Shapes shared by several FarmFlow screens: the two status unions, the
    greenhouse form, sign-in credentials and the token endpoint's reply. */
module Domain {
  import opened Js

  /** `'active' | 'maintenance' | 'inactive'`. */
  datatype GreenhouseStatus = Active | Maintenance | Inactive
  {
    /** The string the union member is on the wire and in a `switch`. */
    function Name(): string {
      match this
      case Active => "active"
      case Maintenance => "maintenance"
      case Inactive => "inactive"
    }
  }

  predicate IsGreenhouseStatusName(s: string) {
    s == "active" || s == "maintenance" || s == "inactive"
  }

  /** The names of the union are exactly the three status strings, one each. */
  lemma {:induction false} GreenhouseStatusNames(a: GreenhouseStatus, b: GreenhouseStatus, s: string)
    ensures IsGreenhouseStatusName(a.Name())
    ensures a.Name() == b.Name() ==> a == b
    ensures IsGreenhouseStatusName(s) ==> exists st: GreenhouseStatus :: st.Name() == s
  {
    if s == "active" {
      assert Active.Name() == s;
    } else if s == "maintenance" {
      assert Maintenance.Name() == s;
    } else if s == "inactive" {
      assert Inactive.Name() == s;
    }
  }

  /** `'pending' | 'in_progress' | 'completed'`. */
  datatype TaskStatus = Pending | InProgress | Completed
  {
    function Name(): string {
      match this
      case Pending => "pending"
      case InProgress => "in_progress"
      case Completed => "completed"
    }
  }

  predicate IsTaskStatusName(s: string) {
    s == "pending" || s == "in_progress" || s == "completed"
  }

  lemma {:induction false} TaskStatusNames(a: TaskStatus, b: TaskStatus, s: string)
    ensures IsTaskStatusName(a.Name())
    ensures a.Name() == b.Name() ==> a == b
    ensures IsTaskStatusName(s) ==> exists st: TaskStatus :: st.Name() == s
  {
    if s == "pending" {
      assert Pending.Name() == s;
    } else if s == "in_progress" {
      assert InProgress.Name() == s;
    } else if s == "completed" {
      assert Completed.Name() == s;
    }
  }

  /** The `{ name, size }` form state of both greenhouse-creation screens,
      as typed (untrimmed text). */
  datatype GreenhouseForm = GreenhouseForm(name: string, size: string)

  const EmptyGreenhouseForm := GreenhouseForm("", "")

  /** The `{ username, password }` body posted to `/api-token-auth/`. */
  datatype Credentials = Credentials(username: string, password: string)

  /** The fields of `/api-token-auth/`'s JSON body that the client reads:
      `token` on success, `non_field_errors` on rejection. */
  datatype TokenBody = TokenBody(token: Option<string>, nonFieldErrors: Option<seq<string>>)

  /** `response.ok && data.token`: the server accepted the credentials. */
  predicate TokenGranted(reply: Reply<TokenBody>) {
    reply.IsOk() && Truthy(reply.data.token)
  }
}
