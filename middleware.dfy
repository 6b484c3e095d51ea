/**
 * Route gating: the middleware sends a visitor without a token to the
 * login page, keeps non-admins out of paths beginning with "/admin" and
 * non-operators (admins included) out of paths beginning with "/operator",
 * and runs only on the paths its matcher lists.
 */
module Middleware {

  import opened Shop
  import opened Strings

  datatype Outcome = Next | Redirect(location: string)

  const LoginPage := "/login"
  const HomePage := "/"
  const AdminArea := "/admin"
  const OperatorArea := "/operator"

  /** The middleware function on a request's token role and path. */
  function Gate(token: Option<Role>, path: string): (r: Outcome)
    ensures token.None? ==> r == Redirect(LoginPage)
    ensures token.Some? && HasPrefix(path, AdminArea) && token.value != Admin ==> r == Redirect(HomePage)
    ensures token.Some? && HasPrefix(path, OperatorArea) && token.value != Operator ==> r == Redirect(HomePage)
    ensures r == Next <==>
      && token.Some?
      && (HasPrefix(path, AdminArea) ==> token.value == Admin)
      && (HasPrefix(path, OperatorArea) ==> token.value == Operator)
  {
    if token.None? then Redirect(LoginPage)
    else if HasPrefix(path, AdminArea) && token.value != Admin then Redirect(HomePage)
    else if HasPrefix(path, OperatorArea) && token.value != Operator then Redirect(HomePage)
    else Next
  }

  /** The matcher `/admin/:path*`, `/operator/:path*`, `/cart`, `/checkout`,
      `/orders`: an area root or anything below it, or one of three pages. */
  predicate Matched(path: string) {
    || path == AdminArea || HasPrefix(path, AdminArea + "/")
    || path == OperatorArea || HasPrefix(path, OperatorArea + "/")
    || path == "/cart" || path == "/checkout" || path == "/orders"
  }

  /** What a request meets: the gate on matched paths, nothing elsewhere. */
  function Middleware(token: Option<Role>, path: string): (r: Outcome)
    // A visitor without a token is sent to log in exactly on the matched paths.
    ensures token.None? ==> (r == Redirect(LoginPage) <==> Matched(path))
    // An unmatched path always passes, whatever the token.
    ensures !Matched(path) ==> r == Next
    // A logged-in visitor is sent home exactly when a matched path lies in
    // the other role's area, and is never sent to log in.
    ensures token.Some? ==>
      (r == Redirect(HomePage) <==>
        && Matched(path)
        && (|| (HasPrefix(path, AdminArea) && token.value != Admin)
            || (HasPrefix(path, OperatorArea) && token.value != Operator)))
    ensures token.Some? ==> r != Redirect(LoginPage)
  {
    if Matched(path) then Gate(token, path) else Next
  }

  /** The gate looks only at the prefix: every path beginning with "/admin"
      is treated as "/admin" itself, and likewise for "/operator". */
  lemma GatingIsByPrefix(token: Option<Role>, rest: string)
    ensures Gate(token, AdminArea + rest) == Gate(token, AdminArea)
    ensures Gate(token, OperatorArea + rest) == Gate(token, OperatorArea)
  {
    PrefixOfConcat(AdminArea, rest);
    PrefixOfConcat(OperatorArea, rest);
    PrefixOfConcat(AdminArea, "");
    PrefixOfConcat(OperatorArea, "");
    assert AdminArea + "" == AdminArea;
    assert OperatorArea + "" == OperatorArea;
    assert (AdminArea + rest)[1] == 'a';
    assert (OperatorArea + rest)[1] == 'o';
    assert !HasPrefix(AdminArea + rest, OperatorArea);
    assert !HasPrefix(OperatorArea + rest, AdminArea);
  }

  /** Each area is open to exactly one role: an admin is turned away from
      the operator area, an operator from the admin area. */
  lemma AreasAreExclusive(role: Role, rest: string)
    ensures Middleware(Some(role), AdminArea + "/" + rest) == Next <==> role == Admin
    ensures Middleware(Some(role), OperatorArea + "/" + rest) == Next <==> role == Operator
  {
    GatingIsByPrefix(Some(role), "/" + rest);
    assert AdminArea + "/" + rest == AdminArea + ("/" + rest);
    assert OperatorArea + "/" + rest == OperatorArea + ("/" + rest);
    PrefixOfConcat(AdminArea + "/", rest);
    PrefixOfConcat(OperatorArea + "/", rest);
    PrefixOfConcat(AdminArea, "");
    PrefixOfConcat(OperatorArea, "");
    assert AdminArea + "" == AdminArea;
    assert OperatorArea + "" == OperatorArea;
    assert !HasPrefix(AdminArea, OperatorArea) by {
      assert AdminArea[1] != OperatorArea[1];
    }
    assert !HasPrefix(OperatorArea, AdminArea) by {
      assert AdminArea[1] != OperatorArea[1];
    }
  }

  /** The cart, checkout and order pages are open to every logged-in role
      and closed to a visitor without a token. */
  lemma PagesNeedOnlyLogin(token: Option<Role>)
    ensures Middleware(token, "/cart") == Middleware(token, "/checkout") == Middleware(token, "/orders")
    ensures Middleware(token, "/cart") == if token.Some? then Next else Redirect(LoginPage)
  {
    assert !HasPrefix("/cart", AdminArea) && !HasPrefix("/cart", OperatorArea) by {
      assert "/cart"[1] != AdminArea[1] && "/cart"[1] != OperatorArea[1];
    }
    assert !HasPrefix("/checkout", AdminArea) && !HasPrefix("/checkout", OperatorArea) by {
      assert "/checkout"[1] != AdminArea[1] && "/checkout"[1] != OperatorArea[1];
    }
    assert !HasPrefix("/orders", AdminArea) && !HasPrefix("/orders", OperatorArea) by {
      assert "/orders"[1] != AdminArea[1] && "/orders"[2] != OperatorArea[2];
    }
  }

  /** The gate and the matcher differ: "/administrator" would be turned away
      by the gate for a customer, but the matcher never runs the gate there. */
  lemma MatcherNarrowerThanGate()
    ensures Gate(Some(Customer), "/administrator") == Redirect(HomePage)
    ensures Middleware(Some(Customer), "/administrator") == Next
  {
    PrefixOfConcat(AdminArea, "istrator");
    assert AdminArea + "istrator" == "/administrator";
    assert !HasPrefix("/administrator", AdminArea + "/") by {
      assert "/administrator"[6] != (AdminArea + "/")[6];
    }
    assert !HasPrefix("/administrator", OperatorArea + "/") by {
      assert "/administrator"[1] != (OperatorArea + "/")[1];
    }
  }
}
