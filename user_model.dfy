/** The User record and its role vocabulary. */
module UserModel {
  import opened Base

  const Admin := "admin"
  const TeamLead := "тимлид"
  const Customer := "заказчик"
  const Developer := "разработчик"
  const Designer := "дизайнер"
  const Tester := "тестировщик"
  const Junior := "джун"

  /** The roles the User schema admits; a new user defaults to `Junior`. */
  const Roles := [Admin, TeamLead, Customer, Developer, Designer, Tester, Junior]
  const DefaultRole := Junior

  /** A user's fields (the id and the creation stamp live in the document envelope). */
  datatype User = User(
    name: string,
    email: string,
    password: string,
    role: string,
    avatar: Option<string>,
    skills: string,
    bio: Option<string>,
    experience: Number,
    location: Option<string>,
    portfolio: Option<string>)
}
