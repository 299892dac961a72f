# Domain classes of the `poo` object-orientation course, in Dafny

This project models the domain core of the C# teaching repository `poo`.
Each class keeps the shape it has in C#. Objects whose fields change in
place are Dafny classes with `modifies` clauses. Values and validation
rules are datatypes and functions. Every exception a member can throw
becomes an error value (`Result`, `Outcome`, `Option<Exception>`) carrying
the exception kind and its parameter name.

The modelled parts:

- **Guards and value objects** (Aula03 `Associations.Domain`):
  - `Guard.AgainstNull` and `Guard.TryParseNonEmpty`;
  - the `Money` value object;
  - SKU normalisation (`OrderHelper.NormalizeSku`);
  - the .NET string primitives they rely on: `char.IsWhiteSpace`,
    `string.IsNullOrWhiteSpace`, `Trim`, and `ToUpperInvariant` on ASCII.
- **Order aggregate**: `OrderItem` and `Order`.
  - An order keeps at most one item per SKU. Adding a known SKU merges
    into its item. Removing lowers an item and drops it when it reaches 0.
  - The items are specified by their abstract *lines*, and every operation
    is proved against pure functions on those lines (`AddLine`,
    `RemoveLine`, `LowerLine`).
  - The total is proved to be the sum of the subtotals. Adding and removing
    move it by the quantity times the unit price.
- **Category and Product**:
  - identity by id;
  - descriptions that are either meaningful text or null;
  - a product code that is always trimmed;
  - notes that read "" when absent;
  - a category loaded lazily, exactly once.
- **Department/Employee and Person/Passport**:
  - A department and its employees point at each other. The invariant
    `Consistent` (each employee listed at most once, each listed employee
    pointing back, each employee with a department listed by it) holds
    across a set of departments and employees, and adding and removing
    employees keep it.
  - A person gets at most one passport and stores a defensive copy of it.
- **CourseService** (School.Domain): validates a course, given ready-made
  or as loose fields, before exactly one call to the repository's `Add`.
- **ProdutoService and MockProdutoRepository** (the asynchronous
  repository demo): validation before storage, and ids numbered 1, 2, 3, …
  in arrival order.
- **Aula02 Produto**: construction checks, the price raise and identity by
  name. The published `Equals` crashes on null (see Findings).
- **IsPrime/CountPrimes** (the CPU-vs-IO demo): trial division proved to
  decide primality, and the count proved to be the number of primes.

Files:

| file | contents |
|---|---|
| `common.dfy` | `Option`, `Result`, `Outcome` (a void call that may throw), `Object` (an `object?` argument), `Exception` |
| `text.dfy` | the string primitives |
| `guard.dfy` | the two guards |
| `money.dfy` | Money |
| `order_helper.dfy` | SKU normalisation |
| `order.dfy` | OrderItem and Order |
| `category.dfy` | Category |
| `product.dfy` | Product |
| `department.dfy` | Department and Employee |
| `person.dfy` | Person and Passport |
| `course_service.dfy` | CourseService |
| `produto_service.dfy` | the repository demo |
| `produto_aula02.dfy` | the Aula02 Produto |
| `primes.dfy` | the prime counter |

Modelling conventions:
- `decimal` and `double` amounts are mathematical reals.
- `DateOnly` values are day numbers, with "today" passed in as a parameter.
- A `null` argument is `None`, `Null` or a nullable reference.

## Model

| member | source | states |
|---|---|---|
| Text.Trim | aulas/Aula03/associations/src/Associations.Domain/Product/Product.cs:55 | `string.Trim`: the result is a slice of the input with only white space around it, neither starts nor ends with white space, and is empty exactly when the input is blank |
| Text.TrimIdempotent | aulas/Aula03/associations/src/Associations.Domain/Product/Product.cs:55 | a trimmed code is trimmed: trimming it again changes nothing |
| Text.NatToStringRoundTrip | aulas/Aula03/associations/src/Associations.Domain/Category/Category.cs:59 | the decimal digits printed for an id denote that id |
| Guards.AgainstNull | aulas/Aula03/associations/src/Associations.Domain/Guards/Guard.cs:173-178 | throws ArgumentNullException with the given parameter name exactly when the value is null, and otherwise passes the value through unchanged |
| Guards.TryParseNonEmpty | aulas/Aula03/associations/src/Associations.Domain/Guards/Guard.cs:180-185 | true exactly when the string is non-null and holds a non-white-space character; the out value is then the string itself (untrimmed) and null otherwise |
| Guards.NonBlankOrNull | aulas/Aula03/associations/src/Associations.Domain/Category/Category.cs:29-41 | the description rule: meaningful text is kept verbatim, and null, empty and white-space text become null |
| Guards.NonBlankOrNullIdempotent | aulas/Aula03/associations/src/Associations.Domain/Category/Category.cs:29-41 | applying the description rule to its own result changes nothing |
| ValueObjects.NewMoney | aulas/Aula03/associations/src/Associations.Domain/Money.cs:9-17 | a negative amount throws ArgumentOutOfRangeException("value"); every amount from 0 up is accepted and stored as given |
| ValueObjects.EqualsIsEquivalence | aulas/Aula03/associations/src/Associations.Domain/Money.cs:19-26 | two Money values are equal exactly when their values agree; equality is reflexive, symmetric and transitive, and false for null and foreign objects |
| ValueObjects.EqualsImpliesEqualHash | aulas/Aula03/associations/src/Associations.Domain/Money.cs:19-31 | equal Money values have equal hash codes, whatever decimal's hash is |
| OrderHelpers.NormalizeSku | aulas/Aula03/associations/src/Associations.Domain/Order/Helpers/OrderHelper.cs:7-12 | null throws ArgumentNullException("raw"); otherwise the result is the canonical form `Normalize(raw)` (the upper-cased non-white-space characters, in order; see NormalizeConcat and NormalizeChar), so it has no white space and is no longer than the input |
| OrderHelpers.NormalizeConcat | aulas/Aula03/associations/src/Associations.Domain/Order/Helpers/OrderHelper.cs:10-11 | normalisation distributes over concatenation |
| OrderHelpers.NormalizeChar | aulas/Aula03/associations/src/Associations.Domain/Order/Helpers/OrderHelper.cs:10-11 | one character normalises to nothing when it is white space and to its upper-case form otherwise; with NormalizeConcat this determines the result completely |
| OrderHelpers.NormalizeLength | aulas/Aula03/associations/src/Associations.Domain/Order/Helpers/OrderHelper.cs:10-11 | the result is as long as the input exactly when the input has no white space, and empty exactly when the input is blank |
| OrderHelpers.NormalizeIdempotent | aulas/Aula03/associations/src/Associations.Domain/Order/Helpers/OrderHelper.cs:7-12 | a normalised SKU normalises to itself |
| OrderAggregate.FindSku | aulas/Aula03/associations/src/Associations.Domain/Order/Order.cs:58 | `FirstOrDefault` by SKU: the index found holds the SKU and no earlier line does; none means no line holds it |
| OrderAggregate.AddLine | aulas/Aula03/associations/src/Associations.Domain/Order/Order.cs:14-27 | a successful add raises the total by the added quantity times the unit price that applies: the new item's for a new SKU, the existing item's for a known one |
| OrderAggregate.AddLineShape | aulas/Aula03/associations/src/Associations.Domain/Order/Order.cs:14-27 | SKUs stay distinct; a new SKU appends exactly the given line; a known SKU fails exactly for a quantity of 0 or less, otherwise raises that line only and keeps its price and the line count |
| OrderAggregate.LowerLine | aulas/Aula03/associations/src/Associations.Domain/Order/Order.cs:64-68 | lowering item k by q, and dropping it at 0, lowers the total by q times its unit price |
| OrderAggregate.LowerLineDistinct | aulas/Aula03/associations/src/Associations.Domain/Order/Order.cs:64-68 | lowering or dropping an item keeps the SKUs distinct |
| OrderAggregate.RemoveLineSucceeds | aulas/Aula03/associations/src/Associations.Domain/Order/Order.cs:56-69 | removal succeeds exactly for a non-null SKU whose normalised form has an item holding at least the quantity, with a positive quantity; null, unknown and too-large cases fail with the source's exceptions |
| OrderAggregate.RemoveLineEffect | aulas/Aula03/associations/src/Associations.Domain/Order/Order.cs:56-69 | a successful removal lowers exactly that item, deletes it exactly when it reaches 0, and keeps the SKUs distinct |
| OrderAggregate.FoldIsSum | aulas/Aula03/associations/src/Associations.Domain/Order/Order.cs:11-12 | the `Aggregate` fold of the subtotals equals their sum |
| OrderAggregate.SumNonNegative | aulas/Aula03/associations/src/Associations.Domain/Order/Order.cs:11-12 | the total is never negative, so the fold never makes Money throw |
| OrderAggregate.TotalAfterRemovalExample | aulas/Aula03/associations/tests/Associations.Domain.Tests/OrderSpecs.cs:44-58 | 3 x 50 and 2 x 100, less 1 of the first SKU, total 300 |
| OrderAggregate.OrderItem.Create | aulas/Aula03/associations/src/Associations.Domain/Order/OrderItem.cs:21-35 | a blank SKU, then a quantity of 0 or less, then a null price throw, in that order; otherwise the item holds the normalised SKU, the quantity and the price |
| OrderAggregate.OrderItem.Increase | aulas/Aula03/associations/src/Associations.Domain/Order/OrderItem.cs:37-44 | refuses 0 or less and keeps the quantity; otherwise adds the amount |
| OrderAggregate.OrderItem.Decrease | aulas/Aula03/associations/src/Associations.Domain/Order/OrderItem.cs:46-57 | refuses 0 or less, then more than held, each keeping the quantity; otherwise subtracts, so the quantity never goes negative |
| OrderAggregate.OrderItem.SubTotal | aulas/Aula03/associations/src/Associations.Domain/Order/OrderItem.cs:12 | the subtotal is the line's price times quantity, positive when both are |
| OrderAggregate.FindSkuIsFirstEqual | aulas/Aula03/associations/src/Associations.Domain/Order/Order.cs:16 | `FirstOrDefault(i => i.Equals(orderItem))`, where Equals compares SKUs only: the SKU search AddItem runs finds the first item Equals accepts, and nothing exactly when Equals accepts none |
| OrderAggregate.Order.constructor | aulas/Aula03/associations/src/Associations.Domain/Order/Order.cs:9 | a new order has no items and total 0 |
| OrderAggregate.Order.Total | aulas/Aula03/associations/src/Associations.Domain/Order/Order.cs:11-12 | the total is the sum of the subtotals |
| OrderAggregate.Order.AddItem | aulas/Aula03/associations/src/Associations.Domain/Order/Order.cs:14-27 | the new lines are AddLine of the old ones; a new SKU appends the very object given, a known SKU keeps the list; a failed merge changes nothing; SKUs stay distinct |
| OrderAggregate.Order.Append | aulas/Aula03/associations/src/Associations.Domain/Order/Order.cs:20 | the item object itself is appended and its line added at the end; SKUs stay distinct because the SKU was new |
| OrderAggregate.Order.IncreaseAt | aulas/Aula03/associations/src/Associations.Domain/Order/Order.cs:24 | the list keeps its items and only line k changes, raised by the amount; 0 or less fails with nothing changed |
| OrderAggregate.Order.AddItemBySku | aulas/Aula03/associations/src/Associations.Domain/Order/Order.cs:29-54 | invalid arguments throw the OrderItem constructor's exception and change nothing; valid ones always succeed as AddLine of the normalised line |
| OrderAggregate.Order.RemoveItem | aulas/Aula03/associations/src/Associations.Domain/Order/Order.cs:56-69 | succeeds exactly when RemoveLine does, with RemoveLine's lines or its exception; every failure leaves the order unchanged; no item is ever added |
| OrderAggregate.Order.LowerItem | aulas/Aula03/associations/src/Associations.Domain/Order/Order.cs:64-68 | decreasing a found item gives LowerLine's lines, and a quantity of 0 or less fails with nothing changed |
| OrderAggregate.Order.DecreaseAt | aulas/Aula03/associations/src/Associations.Domain/Order/Order.cs:64 | the list keeps its items and only line k changes, lowered by the amount; 0 or less fails with nothing changed |
| OrderAggregate.Order.DeleteAt | aulas/Aula03/associations/src/Associations.Domain/Order/Order.cs:67 | the list loses item k and its line, and every other item stays in order |
| Categories.Category.Create | aulas/Aula03/associations/src/Associations.Domain/Category/Category.cs:16-27 | a negative id throws first, then a null name; otherwise a category with that id and name and no description |
| Categories.Category.Default | aulas/Aula03/associations/src/Associations.Domain/Category/Category.cs:14 | every read builds a new category 0 named "Uncategorized" |
| Categories.Category.SetDescription | aulas/Aula03/associations/src/Associations.Domain/Category/Category.cs:29-41 | meaningful text is stored verbatim; null, empty and white-space text clear it; the description is never blank |
| Categories.EqualsConsistentWithHash | aulas/Aula03/associations/src/Associations.Domain/Category/Category.cs:44-55 | two categories are equal exactly when their ids agree, whatever their names; equality is reflexive and symmetric, false for null and other classes, and holds exactly when the hash codes agree |
| Categories.FormatDeterminesId | aulas/Aula03/associations/src/Associations.Domain/Category/Category.cs:57-60 | two categories whose `ToString` texts coincide have the same id |
| Categories.DefaultsAreDistinctButEqual | aulas/Aula03/associations/tests/Associations.Domain.Tests/CategorySpecs.cs:251-260 | two reads of Default are different objects that are equal and hash alike |
| Products.Product.Create | aulas/Aula03/associations/src/Associations.Domain/Product/Product.cs:43-48 | a null name throws ArgumentNullException("name"); otherwise empty code and notes, no description, no category loaded |
| Products.Product.SetProductCode | aulas/Aula03/associations/src/Associations.Domain/Product/Product.cs:50-56 | null throws and keeps the old code; otherwise the code is the trimmed text, empty exactly when the text is blank; nothing else changes |
| Products.Product.SetNotes | aulas/Aula03/associations/src/Associations.Domain/Product/Product.cs:25-31 | null is stored as "", anything else as given |
| Products.Product.SetDescription | aulas/Aula03/associations/src/Associations.Domain/Product/Product.cs:58-70 | the Category rule: meaningful text verbatim, anything blank clears it |
| Products.Product.EnsureCategory | aulas/Aula03/associations/src/Associations.Domain/Product/Product.cs:75-79 | a loaded category stays; otherwise a fresh Default is loaded; afterwards one is always loaded |
| Products.Product.GetCategory | aulas/Aula03/associations/src/Associations.Domain/Product/Product.cs:34-41 | returns the loaded category, loading Default on first read |
| Products.CategoryLoadedOnce | aulas/Aula03/associations/tests/Associations.Domain.Tests/ProductSpecs.cs:127-137 | two reads of a new product's category give the same Default object |
| DepartmentAggregate.RemoveFirst | aulas/Aula03/associations/src/Associations.Domain/DepartmentAggregate/Department.cs:45 | `List.Remove`: an absent element leaves the list; a present one shortens it by one, and only it can go |
| DepartmentAggregate.RemoveFirstNoDuplicates | aulas/Aula03/associations/src/Associations.Domain/DepartmentAggregate/Department.cs:45 | on a list without duplicates, removal takes the element out entirely and keeps it duplicate-free |
| DepartmentAggregate.Employee.constructor | aulas/Aula03/associations/src/Associations.Domain/DepartmentAggregate/Employee.cs:7-10 | a new employee has no department |
| DepartmentAggregate.Employee.SetDepartment | aulas/Aula03/associations/src/Associations.Domain/DepartmentAggregate/Employee.cs:16-19 | points the employee at the department |
| DepartmentAggregate.Employee.ClearDepartment | aulas/Aula03/associations/src/Associations.Domain/DepartmentAggregate/Employee.cs:22-25 | clears the employee's department |
| DepartmentAggregate.Department.constructor | aulas/Aula03/associations/src/Associations.Domain/DepartmentAggregate/Department.cs:9-12 | a new department has no employees |
| DepartmentAggregate.Department.AddEmployee | aulas/Aula03/associations/src/Associations.Domain/DepartmentAggregate/Department.cs:18-35 | null throws; an employee already listed is left alone; otherwise it leaves its previous department, is appended here and points here; the employee's name is kept; both sides stay consistent |
| DepartmentAggregate.Department.RemoveEmployee | aulas/Aula03/associations/src/Associations.Domain/DepartmentAggregate/Department.cs:37-48 | null throws; an employee not listed is left alone; otherwise it is removed and its department cleared; the employee's name is kept; both sides stay consistent |
| DepartmentAggregate.ListedHasNoPointer | aulas/Aula03/associations/src/Associations.Domain/DepartmentAggregate/Department.cs:23-34 | when both sides are consistent, an employee a department does not list does not point to it |
| DepartmentAggregate.ReassignScenario | aulas/Aula03/associations/tests/Associations.Domain.Tests/DepartmentEmployeeSpecs.cs:31-47 | adding an employee of d1 to d2 moves it: d2 lists it, it points to d2, d1 no longer lists it |
| DepartmentAggregate.RemoveScenario | aulas/Aula03/associations/tests/Associations.Domain.Tests/DepartmentEmployeeSpecs.cs:50-62 | removing clears the employee's department and the listing |
| PersonAggregate.Passport.Create | aulas/Aula03/associations/src/Associations.Domain/PersonAggregate/Passport.cs:8-17 | a blank number throws ArgumentException, then an expiration not after today throws ArgumentOutOfRangeException; otherwise a passport with both |
| PersonAggregate.Person.Create | aulas/Aula03/associations/src/Associations.Domain/PersonAggregate/Person.cs:8-13 | a blank name throws ArgumentException("name"); otherwise a person without passport |
| PersonAggregate.Person.IssuePassport | aulas/Aula03/associations/src/Associations.Domain/PersonAggregate/Person.cs:15-25 | null throws, a second passport throws InvalidOperation, an expired one throws from the copy; success stores a fresh copy with the same number and expiration; failures change nothing |
| PersonAggregate.SecondPassportRefused | aulas/Aula03/associations/tests/Associations.Domain.Tests/PersonTests/PersonPassportEncapsulationSp.cs:76-84 | the second passport is refused and the first kept |
| CourseServices.Course.constructor | SchoolPersistenceDemo/src/School.Domain/Domain/Entities/Course.cs:5-16 | a course built from its fields keeps CourseId 0 |
| CourseServices.CourseStore.Add | SchoolPersistenceDemo/src/School.Domain/Services/CourseService.cs:35 | the repository's Add records the course and returns it; it may write CourseId, as the ADO.NET repository does, and keeps the other fields |
| CourseServices.CourseInputError | SchoolPersistenceDemo/src/School.Domain/Services/CourseService.cs:23-48 | no error exactly when the name has content and the workload is present and positive; the errors are the two exceptions of the two paths |
| CourseServices.NameCheckedFirst | SchoolPersistenceDemo/src/School.Domain/Services/CourseService.cs:40-48 | a bad name is reported whatever the workload |
| CourseServices.CourseService.Create | SchoolPersistenceDemo/src/School.Domain/Services/CourseService.cs:8-9 | a null repository throws ArgumentNullException("courseRepository") |
| CourseServices.CourseService.CreateCourse | SchoolPersistenceDemo/src/School.Domain/Services/CourseService.cs:11-21 | a given course is validated and added as is, the loose fields ignored; otherwise a new course is built from them; failures do not reach the repository, success adds exactly once |
| CourseServices.CourseService.ValidateAndAddCourse | SchoolPersistenceDemo/src/School.Domain/Services/CourseService.cs:23-36 | blank Name, then WorkloadHours <= 0, throw with those names; otherwise exactly this course is added, with its name, workload and activity kept |
| CourseServices.CourseService.CreateAndAddCourse | SchoolPersistenceDemo/src/School.Domain/Services/CourseService.cs:38-58 | blank name, then a missing or non-positive workload, throw; otherwise a fresh course with these fields is added |
| CourseServices.CreateKeepsAccepted | SchoolPersistenceDemo/src/School.Domain/Services/CourseService.cs:11-58 | the repository only ever receives courses with a name and a positive workload |
| RepositoryAsyncMock.Produto.Create | preparacao/aula_async_await/src/06-RepositoryAsync-Mock/Domain/Produto.cs:19-23 | a null name throws ArgumentNullException("nome"); the price is not checked |
| RepositoryAsyncMock.FirstWithId | preparacao/aula_async_await/src/06-RepositoryAsync-Mock/Infra/MockProdutoRepository.cs:47 | the first stored product with the id, or none when no product has it |
| RepositoryAsyncMock.FirstWithIdNumbered | preparacao/aula_async_await/src/06-RepositoryAsync-Mock/Infra/MockProdutoRepository.cs:29-47 | in a store numbered from one, id k finds product k - 1 and other ids find nothing |
| RepositoryAsyncMock.MockProdutoRepository.constructor | preparacao/aula_async_await/src/06-RepositoryAsync-Mock/Infra/MockProdutoRepository.cs:17-18 | empty store, next id 1 |
| RepositoryAsyncMock.MockProdutoRepository.Add | preparacao/aula_async_await/src/06-RepositoryAsync-Mock/Infra/MockProdutoRepository.cs:21-36 | the product gets the next id, the counter moves on, the product is appended; a product not yet stored keeps the store numbered from one |
| RepositoryAsyncMock.MockProdutoRepository.GetById | preparacao/aula_async_await/src/06-RepositoryAsync-Mock/Infra/MockProdutoRepository.cs:38-48 | null exactly when no stored product has the id, otherwise the first stored product with it, as `FirstOrDefault` returns |
| RepositoryAsyncMock.ProdutoError | preparacao/aula_async_await/src/06-RepositoryAsync-Mock/Application/ProdutoService.cs:35-38 | no error exactly when the name has content and the price is positive; a blank name is reported first |
| RepositoryAsyncMock.ProdutoService.Create | preparacao/aula_async_await/src/06-RepositoryAsync-Mock/Application/ProdutoService.cs:26-29 | a null repository throws ArgumentNullException("repo") |
| RepositoryAsyncMock.ProdutoService.AddProduto | preparacao/aula_async_await/src/06-RepositoryAsync-Mock/Application/ProdutoService.cs:31-44 | null, blank name, then non-positive price throw and leave store and product untouched; otherwise the repository's Add runs exactly once |
| RepositoryAsyncMock.ProdutoService.GetById | preparacao/aula_async_await/src/06-RepositoryAsync-Mock/Application/ProdutoService.cs:46-52 | an id of 0 or less throws ArgumentException("id"); otherwise exactly the repository's `GetByIdAsync` answer |
| RepositoryAsyncMock.LookupFindsKth | preparacao/aula_async_await/src/06-RepositoryAsync-Mock/Application/ProdutoService.cs:46-52 | with the store numbered from one, id k finds the k-th product added and ids past the end find null |
| RepositoryAsyncMock.AddTwoAndFind | preparacao/aula_async_await/src/06-RepositoryAsync-Mock/Program.cs:29-41 | two products added to a fresh repository get ids 1 and 2, and id 1 finds the first |
| RepositoryAsyncMock.RefuseNegativePrice | preparacao/aula_async_await/src/06-RepositoryAsync-Mock/Program.cs:49-61 | a product priced -1 is refused with ArgumentException("Preco") and the store is unchanged |
| IntroducaoPOO.ProdutoArgumentsError | aulas/Aula02/IntroducaoPOO/Modelo/Produto.cs:16-27 | no error exactly when the name has content, the price is positive and the stock is not negative; a bad name is reported first |
| IntroducaoPOO.Produto.Create | aulas/Aula02/IntroducaoPOO/Modelo/Produto.cs:16-27 | fails exactly on those errors; otherwise a product with the given name, price and stock |
| IntroducaoPOO.Produto.CreateWithoutStock | aulas/Aula02/IntroducaoPOO/Modelo/Produto.cs:29-32 | the same checks with stock 0 |
| IntroducaoPOO.Produto.ValorTotal | aulas/Aula02/IntroducaoPOO/Modelo/Produto.cs:34 | the stock's worth is never negative and is 0 without stock |
| IntroducaoPOO.Produto.ReajustarPrecoUnitario | aulas/Aula02/IntroducaoPOO/Modelo/Produto.cs:36-40 | a percentage of 0 or less throws and keeps the price; otherwise the price grows by that percentage of itself and strictly increases |
| IntroducaoPOO.RaisedGrows | aulas/Aula02/IntroducaoPOO/Modelo/Produto.cs:39 | a positive raise scales the price by 1 + pct/100 |
| IntroducaoPOO.RaisedScalesTotal | aulas/Aula02/IntroducaoPOO/Modelo/Produto.cs:34-40 | raising the price raises the stock's worth by the same percentage |
| IntroducaoPOO.Produto.EqualsAsWritten | aulas/Aula02/IntroducaoPOO/Modelo/Produto.cs:47-50 | as published: throws NullReferenceException exactly for null or a non-Produto; otherwise compares names |
| IntroducaoPOO.Produto.Equals | aulas/Aula02/IntroducaoPOO/Modelo/Produto.cs:47-50 | as intended: equal exactly to products with the same name |
| IntroducaoPOO.EqualsRepairsNull | aulas/Aula02/IntroducaoPOO/Modelo/Produto.cs:47-50 | the corrected Equals answers false where the published one throws, and agrees with it elsewhere |
| IntroducaoPOO.EqualsConsistentWithHash | aulas/Aula02/IntroducaoPOO/Modelo/Produto.cs:47-55 | equality by name is an equivalence and equal products hash alike |
| CpuVsIo.ISqrt | preparacao/aula_async_await/src/07-CPUvsIO/Program.cs:113 | `(int)Math.Sqrt(n)`: the largest r with r * r <= n |
| CpuVsIo.SmallCases | preparacao/aula_async_await/src/07-CPUvsIO/Program.cs:110-112 | the early answers are right: nothing below 2 is prime, 2 and 3 are, larger even numbers are not |
| CpuVsIo.TrialDivisionUpToRoot | preparacao/aula_async_await/src/07-CPUvsIO/Program.cs:113-116 | n >= 2 is prime exactly when nothing from 2 to its integer square root divides it |
| CpuVsIo.OddTrialDivision | preparacao/aula_async_await/src/07-CPUvsIO/Program.cs:112-116 | for odd n >= 5 the odd candidates up to the root suffice |
| CpuVsIo.TryOddDivisors | preparacao/aula_async_await/src/07-CPUvsIO/Program.cs:114-116 | the loop answers true exactly when no odd i from 3 up to r divides n |
| CpuVsIo.IsPrime | preparacao/aula_async_await/src/07-CPUvsIO/Program.cs:108-117 | true exactly when n is prime |
| CpuVsIo.PrimeCount | preparacao/aula_async_await/src/07-CPUvsIO/Program.cs:96-106 | no primes are counted below 2 |
| CpuVsIo.PrimeCountIsCardinality | preparacao/aula_async_await/src/07-CPUvsIO/Program.cs:96-106 | the count is the number of primes in 2..max |
| CpuVsIo.PrimeCountMonotone | preparacao/aula_async_await/src/07-CPUvsIO/Program.cs:96-106 | the count never decreases as max grows, and grows by at most one per step |
| CpuVsIo.CountPrimes | preparacao/aula_async_await/src/07-CPUvsIO/Program.cs:96-106 | the loop counts exactly the primes in 2..max |

## Left out

- CpuVsIo.CountPrimes: requires `max < int.MaxValue`. For `max == int.MaxValue` the 32-bit loop counter `i <= max; i++` wraps, and the loop would not end.
- CpuVsIo.IsPrime: the floating-point `Math.Sqrt` is replaced by the exact integer square root. For every 32-bit `int` the two agree once truncated.
- Asynchrony: `async`/`await`, `Task.Delay` latency, the `SemaphoreSlim` lock and thread ids are left out. Each call runs to completion, in order.
- Console output and exception messages are left out. Only the exception type and its parameter name are modelled.
- Hash codes of strings and decimals are parameters, because the .NET hash functions are not part of this model. `int`'s hash is the value itself.
- Amounts are reals: `decimal` precision and `double` rounding are not modelled. This applies to `OrderItem` quantities, the `(decimal)Quantity` cast, and `Produto` prices and raises.
- `ToUpperInvariant` maps ASCII letters only. `char.IsWhiteSpace` is the full Unicode list.
- OrderAggregate.Order.AddItem: requires a non-null, valid item. In the source a null item is not refused: `i.Equals(null)` is false, so `FirstOrDefault` finds nothing and the null is appended (Order.cs:20); a later `Total`, `AddItem` or `RemoveItem` then throws NullReferenceException on it. An order holding null is not modelled.
- `ToString` of OrderItem, Order and the Aula02 Produto is not modelled. Category's `ToString` is modelled (`Format`).
- The repository interfaces behind CourseService and ProdutoService are concrete in-memory stores here. CourseService's store only records the calls to `Add`. The EF Core and ADO.NET repositories are not part of this model.
- RepositoryAsyncMock.MockProdutoRepository.Add: the numbering invariant is promised only for a product not already stored. Ids have public setters, and re-adding the same object renumbers it.
- CourseServices.CourseService.CreateCourse: the default arguments (`name = null`, `workloadHours = null`, `isActive = true`, `course = null`) are not modelled; callers pass every argument.
- CourseServices.CreateKeepsAccepted: holds only while nobody edits the stored courses afterwards, because every `Course` property has a public setter.
- DepartmentAggregate.Department.AddEmployee: the two-sided invariant is stated over an explicit set of departments and employees, passed as ghost parameters.
- Course.Enrollments and the rest of School.Domain are not part of this model.
- Products.Product.SetProductCode: the comment at Product.cs:52-53 says a null code becomes "". The code throws ArgumentNullException instead; the model follows the code.

## Findings

| source | as written | input that shows it | evidently intended | confidence | as-written member | corrected member |
|---|---|---|---|---|---|---|
| aulas/Aula02/IntroducaoPOO/Modelo/Produto.cs:47-50 | `Equals` reads `(obj as Produto).Nome` with no null check, so it throws NullReferenceException | `p.Equals(null)`, or `p.Equals("x")` | false for null and for objects of another class, as `object.Equals` requires | not executed | IntroducaoPOO.Produto.EqualsAsWritten | IntroducaoPOO.Produto.Equals |
